/** PrefixInspector: a second, independent state machine that reads the trace of a
    restoration event by event and refuses whatever it cannot justify from the
    records it has seen (layout-migration-exact-integration-model.py, 489-581). */
module Inspector {
  import opened Common
  import opened RestorePlan
  import opened ServiceWorld
  import opened Records

  datatype Moment = BEFORE | STORED | ACK
  datatype QuietKind =
    | TransportBefore | TransportResult | TransportAck
    | BarrierObserveBefore | BarrierObserveAck | BarrierEffectBefore | BarrierEffectApplied
    | ArchiveBefore | ArchiveApplied

  datatype Item =
    | JournalItem(moment: Moment, name: Slot, tx: string, slot: Slot, value: Value)
    | EffectBefore(step: Step, request: Request)
    | EffectApplied(step: Step, request: Request, after: UnitState)
    | EffectAck(step: Step, exitCode: int)
    | Quiet(kind: QuietKind, node: string)
    | Foreign(event: string)

  datatype Inspection = Inspection(
    records: Journal, pending: Journal, intents: map<Step, Request>, applied: map<Step, UnitState>, count: nat)

  const EMPTY := Inspection(map[], map[], map[], map[], 0)

  predicate KnownOwner(plan: Plan, owner: Owner) {
    owner == Coordinator || exists r | 0 <= r < |plan.participants| :: owner == Node(plan.participants[r].node)
  }

  predicate RequestIdentity(plan: Plan, request: Request) {
    request.tx == plan.tx && request.plan == plan
    && exists r | 0 <= r < |plan.participants| :: request.node == plan.participants[r].node
  }

  /** _validate_record, on the records as they stand with the new one in. */
  predicate RecordJustified(records: Journal, applied: map<Step, UnitState>, slot: Slot, value: Value) {
    match slot.key
    case EffectKey(step, DONE) =>
      if slot.owner != Coordinator then
        var intent := Lookup(records, Slot(slot.owner, EffectKey(step, INTENT)));
        && value.VReceipt? && intent == Some(VLocalIntent(value.receipt.intent))
        && value.receipt.request == value.receipt.intent.request
        && step in applied && value.receipt.after == applied[step]
      else
        var request := Lookup(records, Central(step, INTENT));
        && request.Some? && request.value.VRequest? && value == VConfirmed(request.value.request)
        && ReceiptSlot(step) in records
    case ArchiveKey(_, finished) => slot.owner == Coordinator || !finished
    case ReceiptKey(step) =>
      slot.owner == Coordinator ==> Lookup(records, Local(step, DONE)) == Some(value)
    case TransportKey(step, finished) =>
      finished ==>
        && slot.owner == Coordinator
        && TransportSlot(step, false) in records && ReceiptSlot(step) in records
        && value == VTransported(records[TransportSlot(step, false)], records[ReceiptSlot(step)])
    case _ => true
  }

  predicate EffectJustified(st: Inspection, step: Step, request: Request) {
    var local := Lookup(st.records, Local(step, INTENT));
    var issued := Lookup(st.records, Local(step, GRANT));
    && step !in st.intents && step !in st.applied
    && Lookup(st.records, Central(step, INTENT)) == Some(VRequest(request))
    && local.Some? && local.value.VLocalIntent? && local.value.intent.request == request
    && issued.Some? && issued.value.VIssuance?
    && issued.value.issuance.grant == local.value.intent.grant
    && issued.value.issuance.binding.request == request
    && local.value.intent.grant.request == request && local.value.intent.grant.op == request.op
    && local.value.intent.grant.before == local.value.intent.before
  }

  function Accept(plan: Plan, st: Inspection, item: Item): (r: Option<Inspection>) {
    match item
    case JournalItem(moment, name, tx, slot, value) =>
      if !(tx == plan.tx && KnownOwner(plan, slot.owner) && name == slot) then None
      else (match moment
        case BEFORE =>
          if slot in st.records || slot in st.pending then None
          else Some(st.(pending := st.pending[slot := value], count := st.count + 1))
        case STORED =>
          if !(slot in st.pending && st.pending[slot] == value && slot !in st.records) then None
          else
            var records := st.records[slot := value];
            if RecordJustified(records, st.applied, slot, value) then Some(st.(records := records, count := st.count + 1))
            else None
        case ACK =>
          if slot in st.pending && Lookup(st.records, slot) == Some(value)
          then Some(st.(pending := st.pending - {slot}, count := st.count + 1)) else None)
    case EffectBefore(name, request) =>
      if RequestIdentity(plan, request) && name == StepOf(request) && EffectJustified(st, name, request)
      then Some(st.(intents := st.intents[name := request], count := st.count + 1)) else None
    case EffectApplied(name, request, after) =>
      if RequestIdentity(plan, request) && name == StepOf(request)
         && name in st.intents && st.intents[name] == request && name !in st.applied
      then Some(st.(applied := st.applied[name := after], count := st.count + 1)) else None
    case EffectAck(name, exitCode) =>
      if name in st.applied && exitCode == 0 then Some(st.(count := st.count + 1)) else None
    case Quiet(_, _) => Some(st.(count := st.count + 1))
    case Foreign(_) => None
  }

  function Replay(plan: Plan, trace: seq<Item>): Option<Inspection> {
    ReplayOn(plan, EMPTY, trace)
  }

  function ReplayOn(plan: Plan, start: Inspection, trace: seq<Item>): Option<Inspection> {
    if trace == [] then Some(start)
    else
      match ReplayOn(plan, start, trace[..|trace| - 1])
      case None => None
      case Some(st) => Accept(plan, st, trace[|trace| - 1])
  }

  /** inspect: effects that may have happened but have no local completion. */
  function UnknownEffects(st: Inspection): set<Step> {
    set step | step in st.intents && Local(step, DONE) !in st.records
  }

  /** What is accepted event by event is accepted at every prefix. */
  lemma {:induction false} PrefixAccepted(plan: Plan, start: Inspection, trace: seq<Item>, k: nat)
    requires k <= |trace| && ReplayOn(plan, start, trace).Some?
    ensures ReplayOn(plan, start, trace[..k]).Some?
  {
    if k < |trace| {
      PrefixAccepted(plan, start, trace[..|trace| - 1], k);
      assert trace[..|trace| - 1][..k] == trace[..k];
    } else {
      assert trace[..k] == trace;
    }
  }

  /** In any trace the inspector accepts, whoever produced it, no effect is
      applied twice: the events that apply effects name distinct steps. */
  lemma {:induction false} AcceptedAppliesOnce(plan: Plan, trace: seq<Item>, i: nat, k: nat)
    requires Replay(plan, trace).Some?
    requires i < k < |trace| && trace[i].EffectApplied? && trace[k].EffectApplied?
    ensures trace[i].step != trace[k].step
    decreases |trace|
  {
    if k == |trace| - 1 {
      AppliedStays(plan, trace[..k], i);
      assert trace[..k][i] == trace[i];
    } else {
      PrefixAccepted(plan, EMPTY, trace, |trace| - 1);
      AcceptedAppliesOnce(plan, trace[..|trace| - 1], i, k);
    }
  }

  lemma {:induction false} AppliedStays(plan: Plan, trace: seq<Item>, i: nat)
    requires Replay(plan, trace).Some?
    requires i < |trace| && trace[i].EffectApplied?
    ensures trace[i].step in Replay(plan, trace).value.applied
    decreases |trace|
  {
    if i < |trace| - 1 { AppliedStays(plan, trace[..|trace| - 1], i); }
  }

  /** And no effect is applied without its coordinator's intent, its executor's intent
      and the grant they rest on, all for the very request that was applied. */
  lemma {:induction false} AcceptedEffectIsRecorded(plan: Plan, trace: seq<Item>, i: nat)
    requires Replay(plan, trace).Some?
    requires i < |trace| && trace[i].EffectApplied?
    ensures RecordedFor(Replay(plan, trace).value.records, trace[i].step, trace[i].request)
  {
    AppliedIsRecorded(plan, trace);
    AppliedRequestIsIntended(plan, trace, i);
    AppliedStays(plan, trace, i);
  }

  predicate RecordedFor(records: Journal, step: Step, request: Request) {
    var local, issued := Lookup(records, Local(step, INTENT)), Lookup(records, Local(step, GRANT));
    && Lookup(records, Central(step, INTENT)) == Some(VRequest(request))
    && local.Some? && local.value.VLocalIntent? && local.value.intent.request == request
    && issued.Some? && issued.value.VIssuance? && issued.value.issuance.binding.request == request
    && var g := issued.value.issuance.grant;
       local.value.intent.grant == g && g.request == request && g.op == request.op && g.before == local.value.intent.before
  }

  ghost predicate IntentsRecorded(st: Inspection) {
    && st.applied.Keys <= st.intents.Keys
    && forall step | step in st.intents :: RecordedFor(st.records, step, st.intents[step])
  }

  lemma {:induction false} AcceptKeepsIntentsRecorded(plan: Plan, st: Inspection, item: Item)
    requires IntentsRecorded(st) && Accept(plan, st, item).Some?
    ensures IntentsRecorded(Accept(plan, st, item).value)
  {
    hide RecordJustified, RequestIdentity, KnownOwner;
    hide RecordedFor, EffectJustified;
    if item.EffectBefore? && EffectJustified(st, item.step, item.request) { JustifiedIsRecorded(st, item.step, item.request); }
    if item.JournalItem? && item.slot !in st.records {
      forall step | step in st.intents ensures RecordedFor(st.records[item.slot := item.value], step, st.intents[step]) {
        RecordedStays(st.records, item.slot, item.value, step, st.intents[step]);
      }
    }
  }

  lemma {:induction false} JustifiedIsRecorded(st: Inspection, step: Step, request: Request)
    requires EffectJustified(st, step, request)
    ensures RecordedFor(st.records, step, request)
  {}

  lemma {:induction false} RecordedStays(records: Journal, slot: Slot, value: Value, step: Step, request: Request)
    requires RecordedFor(records, step, request) && slot !in records
    ensures RecordedFor(records[slot := value], step, request)
  {}

  lemma {:induction false} AppliedIsRecorded(plan: Plan, trace: seq<Item>)
    requires Replay(plan, trace).Some?
    ensures IntentsRecorded(Replay(plan, trace).value)
    decreases |trace|
  {
    if trace != [] {
      AppliedIsRecorded(plan, trace[..|trace| - 1]);
      AcceptKeepsIntentsRecorded(plan, Replay(plan, trace[..|trace| - 1]).value, trace[|trace| - 1]);
    }
  }

  lemma {:induction false} AppliedRequestIsIntended(plan: Plan, trace: seq<Item>, i: nat)
    requires Replay(plan, trace).Some?
    requires i < |trace| && trace[i].EffectApplied?
    ensures trace[i].step in Replay(plan, trace).value.intents
    ensures Replay(plan, trace).value.intents[trace[i].step] == trace[i].request
    decreases |trace|
  {
    if i < |trace| - 1 {
      AppliedRequestIsIntended(plan, trace[..|trace| - 1], i);
      AppliedIntended(plan, trace[..|trace| - 1]);
    }
  }

  lemma {:induction false} AppliedIntended(plan: Plan, trace: seq<Item>)
    requires Replay(plan, trace).Some?
    ensures Replay(plan, trace).value.applied.Keys <= Replay(plan, trace).value.intents.Keys
    decreases |trace|
  {
    AppliedIsRecorded(plan, trace);
  }

  // ----- what every accepted trace is like, whoever produced it -----

  /** No journal slot is stored twice. */
  lemma {:induction false} AcceptedStoresOnce(plan: Plan, trace: seq<Item>, i: nat, k: nat)
    requires Replay(plan, trace).Some?
    requires i < k < |trace| && Stores(trace[i]) && Stores(trace[k])
    ensures trace[i].slot != trace[k].slot
    decreases |trace|
  {
    if k == |trace| - 1 {
      StoredStays(plan, trace[..k], i);
      assert trace[..k][i] == trace[i];
    } else {
      PrefixAccepted(plan, EMPTY, trace, |trace| - 1);
      AcceptedStoresOnce(plan, trace[..|trace| - 1], i, k);
    }
  }

  predicate Stores(item: Item) {
    item.JournalItem? && item.moment == STORED
  }

  lemma {:induction false} StoredStays(plan: Plan, trace: seq<Item>, i: nat)
    requires Replay(plan, trace).Some? && i < |trace| && Stores(trace[i])
    ensures Lookup(Replay(plan, trace).value.records, trace[i].slot) == Some(trace[i].value)
    decreases |trace|
  {
    if i < |trace| - 1 { StoredStays(plan, trace[..|trace| - 1], i); }
  }

  /** Nothing is stored that was not announced with the same value, nothing
      acknowledged that was not stored, nothing applied that was not announced for the
      same request, nothing acknowledged as done that was not applied; and all of it
      under the plan's own transaction and participants. */
  lemma {:induction false} AcceptedItemsFollow(plan: Plan, trace: seq<Item>, i: nat)
    requires Replay(plan, trace).Some? && i < |trace|
    ensures match trace[i]
            case JournalItem(moment, name, tx, slot, value) =>
              && tx == plan.tx && name == slot
              && (slot.owner == Coordinator || exists r | 0 <= r < |plan.participants| :: slot.owner == Node(plan.participants[r].node))
              && (moment == STORED ==> exists k :: 0 <= k < i && trace[k] == JournalItem(BEFORE, slot, plan.tx, slot, value))
              && (moment == ACK ==> exists k :: 0 <= k < i && trace[k] == JournalItem(STORED, slot, plan.tx, slot, value))
            case EffectBefore(step, request) =>
              step == StepOf(request) && request.tx == plan.tx && request.plan == plan
              && exists r | 0 <= r < |plan.participants| :: request.node == plan.participants[r].node
            case EffectApplied(step, request, after) => exists k :: 0 <= k < i && trace[k] == EffectBefore(step, request)
            case EffectAck(step, exitCode) =>
              exitCode == 0 && exists k :: 0 <= k < i && trace[k].EffectApplied? && trace[k].step == step
            case Quiet(_, _) => true
            case Foreign(_) => false
  {
    PrefixAccepted(plan, EMPTY, trace, i + 1);
    PrefixAccepted(plan, EMPTY, trace, i);
    assert trace[..i + 1][..i] == trace[..i] && trace[..i + 1][i] == trace[i];
    Remembered(plan, trace[..i]);
  }

  /** What the inspector knows, it has seen. */
  ghost predicate SeenAll(plan: Plan, trace: seq<Item>, st: Inspection) {
    && (forall slot | slot in st.pending :: JournalItem(BEFORE, slot, plan.tx, slot, st.pending[slot]) in trace)
    && (forall slot | slot in st.records :: JournalItem(STORED, slot, plan.tx, slot, st.records[slot]) in trace)
    && (forall step | step in st.intents :: EffectBefore(step, st.intents[step]) in trace)
    && (forall step | step in st.applied :: AppliedIn(trace, step, st.applied[step]))
  }

  predicate AppliedIn(trace: seq<Item>, step: Step, after: UnitState) {
    exists k | 0 <= k < |trace| :: trace[k].EffectApplied? && trace[k].step == step && trace[k].after == after
  }

  lemma {:induction false} Remembered(plan: Plan, trace: seq<Item>)
    requires Replay(plan, trace).Some?
    ensures SeenAll(plan, trace, Replay(plan, trace).value)
    decreases |trace|
  {
    if trace != [] {
      var before, item := trace[..|trace| - 1], trace[|trace| - 1];
      assert trace == before + [item];
      Remembered(plan, before);
      AcceptRemembers(plan, before, Replay(plan, before).value, item);
    }
  }

  lemma {:induction false} AcceptRemembersEffects(plan: Plan, before: seq<Item>, st: Inspection, item: Item)
    requires SeenAll(plan, before, st) && Accept(plan, st, item).Some?
    ensures var next := Accept(plan, st, item).value;
            forall step | step in next.applied :: AppliedIn(before + [item], step, next.applied[step])
  {
    hide Accept;
    RecordsMove(plan, st, item);
    var trace, next := before + [item], Accept(plan, st, item).value;
    forall step | step in next.applied ensures AppliedIn(trace, step, next.applied[step]) {
      if step in st.applied {
        assert AppliedIn(before, step, st.applied[step]);
        var k :| 0 <= k < |before| && before[k].EffectApplied? && before[k].step == step && before[k].after == st.applied[step];
        assert trace[k] == before[k];
      } else {
        assert trace[|before|] == item;
      }
    }
  }

  lemma {:induction false} AcceptRemembers(plan: Plan, before: seq<Item>, st: Inspection, item: Item)
    requires SeenAll(plan, before, st) && Accept(plan, st, item).Some?
    ensures SeenAll(plan, before + [item], Accept(plan, st, item).value)
  {
    hide RecordJustified, EffectJustified, RequestIdentity, KnownOwner, AppliedIn;
    var trace := before + [item];
    assert item in trace && forall x | x in before :: x in trace;
    AcceptRemembersEffects(plan, before, st, item);
  }

  /** Whatever is on record as done was done: a confirmation rests on a receipt, the
      receipt is the node's own completion, and that names the node's intent and the
      state in which an effect of the trace left the unit. */
  lemma {:induction false} AcceptedCompletionsAreReal(plan: Plan, trace: seq<Item>, step: Step)
    requires Replay(plan, trace).Some?
    ensures var records := Replay(plan, trace).value.records;
            && (Central(step, DONE) in records ==>
                  && ReceiptSlot(step) in records && Central(step, INTENT) in records && records[Central(step, INTENT)].VRequest?
                  && records[Central(step, DONE)] == VConfirmed(records[Central(step, INTENT)].request))
            && (TransportSlot(step, true) in records ==>
                  && TransportSlot(step, false) in records && ReceiptSlot(step) in records
                  && records[TransportSlot(step, true)]
                     == VTransported(records[TransportSlot(step, false)], records[ReceiptSlot(step)]))
            && (ReceiptSlot(step) in records ==>
                  Local(step, DONE) in records && records[ReceiptSlot(step)] == records[Local(step, DONE)])
            && (Local(step, DONE) in records ==>
                  && records[Local(step, DONE)].VReceipt?
                  && var receipt := records[Local(step, DONE)].receipt;
                     && Lookup(records, Local(step, INTENT)) == Some(VLocalIntent(receipt.intent))
                     && receipt.request == receipt.intent.request
                     && exists i | 0 <= i < |trace| ::
                          trace[i].EffectApplied? && trace[i].step == step && trace[i].after == receipt.after)
  {
    CompletionsRest(plan, trace);
    Remembered(plan, trace);
    var st := Replay(plan, trace).value;
    assert CompletionRests(st, step);
    if Local(step, DONE) in st.records { assert AppliedIn(trace, step, st.applied[step]); }
  }

  ghost predicate CompletionRests(st: Inspection, step: Step) {
    && (Central(step, DONE) in st.records ==> RecordJustified(st.records, st.applied, Central(step, DONE), st.records[Central(step, DONE)]))
    && (TransportSlot(step, true) in st.records ==>
          RecordJustified(st.records, st.applied, TransportSlot(step, true), st.records[TransportSlot(step, true)]))
    && (ReceiptSlot(step) in st.records ==>
          RecordJustified(st.records, st.applied, ReceiptSlot(step), st.records[ReceiptSlot(step)]))
    && (Local(step, DONE) in st.records ==>
          RecordJustified(st.records, st.applied, Local(step, DONE), st.records[Local(step, DONE)]))
  }

  lemma {:induction false} CompletionsRest(plan: Plan, trace: seq<Item>)
    requires Replay(plan, trace).Some?
    ensures forall step :: CompletionRests(Replay(plan, trace).value, step)
    decreases |trace|
  {
    if trace != [] {
      var before, item := trace[..|trace| - 1], trace[|trace| - 1];
      CompletionsRest(plan, before);
      forall step ensures CompletionRests(Replay(plan, trace).value, step) {
        assert CompletionRests(Replay(plan, before).value, step);
        CompletionStillRests(plan, Replay(plan, before).value, item, step);
      }
    }
  }

  lemma {:induction false} CompletionStillRests(plan: Plan, st: Inspection, item: Item, step: Step)
    requires CompletionRests(st, step) && Accept(plan, st, item).Some?
    ensures CompletionRests(Accept(plan, st, item).value, step)
  {
    hide Accept;
    RecordsMove(plan, st, item);
    var next := Accept(plan, st, item).value;
    if next.records != st.records {
      var slot, value := item.slot, item.value;
      assert forall other | other != slot :: Lookup(next.records, other) == Lookup(st.records, other);
    }
  }

  /** One item adds a justified record, or an applied effect, or neither. */
  lemma {:induction false} RecordsMove(plan: Plan, st: Inspection, item: Item)
    requires Accept(plan, st, item).Some?
    ensures var next := Accept(plan, st, item).value;
            && (next.records == st.records
                || (Stores(item) && item.slot !in st.records && next.records == st.records[item.slot := item.value]
                    && next.applied == st.applied && RecordJustified(next.records, st.applied, item.slot, item.value)))
            && (next.applied == st.applied
                || (item.EffectApplied? && item.step !in st.applied && next.applied == st.applied[item.step := item.after]))
  {
    hide EffectJustified, RequestIdentity, KnownOwner, RecordJustified;
  }

  /** The effects reported as unknown are those announced in the trace without their
      node's completion stored in it. */
  lemma {:induction false} UnknownAreUncompleted(plan: Plan, trace: seq<Item>, step: Step)
    requires Replay(plan, trace).Some?
    ensures step in UnknownEffects(Replay(plan, trace).value)
            <==> && (exists i | 0 <= i < |trace| :: trace[i].EffectBefore? && trace[i].step == step)
                 && (forall i | 0 <= i < |trace| :: Stores(trace[i]) ==> trace[i].slot != Local(step, DONE))
  {
    var st := Replay(plan, trace).value;
    Remembered(plan, trace);
    forall i | 0 <= i < |trace| && trace[i].EffectBefore? ensures trace[i].step in st.intents {
      AnnouncedStays(plan, trace, i);
    }
    forall i | 0 <= i < |trace| && Stores(trace[i]) ensures trace[i].slot in st.records {
      StoredStays(plan, trace, i);
    }
    if step in st.intents {
      var i :| 0 <= i < |trace| && trace[i] == EffectBefore(step, st.intents[step]);
    }
    if Local(step, DONE) in st.records {
      var i :| 0 <= i < |trace| && trace[i] == JournalItem(STORED, Local(step, DONE), plan.tx, Local(step, DONE), st.records[Local(step, DONE)]);
      assert Stores(trace[i]);
    }
  }

  lemma {:induction false} AnnouncedStays(plan: Plan, trace: seq<Item>, i: nat)
    requires Replay(plan, trace).Some? && i < |trace| && trace[i].EffectBefore?
    ensures trace[i].step in Replay(plan, trace).value.intents
    decreases |trace|
  {
    if i < |trace| - 1 { AnnouncedStays(plan, trace[..|trace| - 1], i); }
  }

  class PrefixInspector {
    const plan: Plan
    var records: Journal
    var pending: Journal
    var intents: map<Step, Request>
    var applied: map<Step, UnitState>
    var count: nat

    constructor (plan: Plan)
      ensures this.plan == plan && State() == EMPTY
    {
      this.plan := plan;
      records, pending, intents, applied, count := map[], map[], map[], map[], 0;
    }

    ghost function State(): Inspection
      reads this
    {
      Inspection(records, pending, intents, applied, count)
    }

    /** A refused item may leave a record behind that only its check refused; the
        verdict is final, so the state after a refusal is not used again. */
    method AcceptItem(item: Item) returns (ok: bool)
      modifies this
      ensures ok <==> Accept(plan, old(State()), item).Some?
      ensures ok ==> State() == Accept(plan, old(State()), item).value
    {
      match item {
      case JournalItem(moment, name, tx, slot, value) =>
        if !(tx == plan.tx && KnownOwner(plan, slot.owner) && name == slot) { return false; }
        if moment == BEFORE {
          if slot in records || slot in pending { return false; }
          pending := pending[slot := value];
        } else if moment == STORED {
          if !(slot in pending && pending[slot] == value && slot !in records) { return false; }
          records := records[slot := value];
          if !RecordJustified(records, applied, slot, value) { return false; }
        } else {
          if !(slot in pending && Lookup(records, slot) == Some(value)) { return false; }
          pending := pending - {slot};
        }
      case EffectBefore(name, request) =>
        if !RequestIdentity(plan, request) || name != StepOf(request) { return false; }
        if name in intents || name in applied { return false; }
        var local, issued := Lookup(records, Local(name, INTENT)), Lookup(records, Local(name, GRANT));
        if !(Lookup(records, Central(name, INTENT)) == Some(VRequest(request))
             && local.Some? && local.value.VLocalIntent? && local.value.intent.request == request) { return false; }
        var grant := local.value.intent.grant;
        if !(issued.Some? && issued.value.VIssuance? && issued.value.issuance.grant == grant
             && issued.value.issuance.binding.request == request) { return false; }
        if !(grant.request == request && grant.op == request.op && grant.before == local.value.intent.before) { return false; }
        intents := intents[name := request];
      case EffectApplied(name, request, after) =>
        if !RequestIdentity(plan, request) || name != StepOf(request) { return false; }
        if !(name in intents && intents[name] == request && name !in applied) { return false; }
        applied := applied[name := after];
      case EffectAck(name, exitCode) =>
        if name !in applied || exitCode != 0 { return false; }
      case Quiet(_, _) =>
      case Foreign(_) =>
        return false;
      }
      count := count + 1;
      return true;
    }
  }
}
