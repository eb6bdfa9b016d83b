/** The cluster a restoration runs on: the journals, the services, the trace the
    inspector reads and the fault that may cut the run at any event
    (layout-migration-exact-integration-model.py), with the coordinator, the
    transport, the local executor and the grant provider acting on it. */
module Cluster {
  import opened Common
  import opened RestorePlan
  import opened ServiceWorld
  import opened Records
  import opened Inspector
  import opened Grants
  import opened Progress
  import opened Tracking
  import opened Stages
  import opened Hold
  import opened Launch
  import Barrier

  /** A call returns, is refused, or the run is cut inside it. */
  datatype Outcome<+T> = Done(value: T) | Cut | Refused {
    predicate IsFailure() { !Done? }
    function PropagateFailure<U>(): Outcome<U> { if Cut? then Outcome<U>.Cut else Outcome<U>.Refused }
    function Extract(): T requires Done? { value }
  }

  datatype Stage = NEW | HELD_MODEL | RELEASED_MODEL | RESTORING | COMPLETE

  class Cluster {
    const ev: Evidence
    var cut: Option<nat>
    var journal: Journal
    var services: Services
    var sources: Sources
    var effects: seq<Step>
    var trace: seq<Item>
    var stage: Stage
    var pending: Option<Request>
    var attempted: set<Step>
    var nonces: nat
    var poisoned: bool
    var used: bool
    ghost var origin: Inspection  // what the inspector knew when this trace began

    ghost function W(): World
      reads `journal, `services, `sources, `effects
    {
      World(journal, services, sources, effects)
    }

    ghost predicate At(n: nat, k: nat, fired: bool)
      reads `journal, `services, `sources, `effects
    {
      AtStage(ev, W(), n, k, fired)
    }

    ghost function Seen(): Option<Inspection>
      reads `trace, `origin
    {
      ReplayOn(ev.plan, origin, trace)
    }

    ghost function View(): Option<Inspection>
      reads `trace, `origin
    {
      Uncounted(Seen())
    }

    /** The inspector has accepted every event, and its records are the journals. */
    ghost predicate InStep()
      reads `trace, `origin, `journal
    {
      View().Some? && View().value.records == journal && View().value.pending == map[]
    }

    ghost function ViewInStep(): (st: Inspection)
      reads `trace, `origin, `journal
      requires InStep()
      ensures View() == Some(st) && st.count == 0
    {
      View().value
    }

    /** In step, and it has seen exactly the effects that happened. */
    ghost predicate Watched()
      reads `trace, `origin, `journal, `services, `sources, `effects
    {
      InSync(ev, View(), W())
    }

    /** The run may stop here: the durable state is that of step n in progress or
        just completed, the inspector has accepted every event, and at most one
        effect is unaccounted for. */
    ghost predicate Stopped(n: nat)
      reads `trace, `origin, `journal, `services, `sources, `effects
    {
      StoppedIn(ev, View(), W(), n)
    }

    /** Every event so far is accepted, and at most one effect is unaccounted for. */
    ghost predicate Accepted()
      reads `trace, `origin
    {
      Seen().Some? && |UnknownEffects(Seen().value)| <= 1
    }

    ghost predicate Reached(n: nat, k: nat, fired: bool)
      reads `journal, `services, `sources, `effects
    {
      if k == 8 then At(n + 1, 0, false) else At(n, k, fired)
    }

    method Hit(item: Item) returns (r: Outcome<()>)
      modifies `trace
      ensures trace == old(trace) + [item]
      ensures r == if cut == Some(|old(trace)|) then Cut else Done(())
      ensures View() == Uncounted(AcceptNext(ev.plan, old(View()), item))
    {
      var index := |trace|;
      trace := trace + [item];
      assert trace[..|trace| - 1] == old(trace);
      assert Seen() == AcceptNext(ev.plan, old(Seen()), item);
      CountIsIdle(ev.plan, old(Seen()), item);
      if cut == Some(index) { return Cut; }
      return Done(());
    }

    /** An event that says nothing about records or effects. */
    method Pass(kind: QuietKind, node: string) returns (r: Outcome<()>)
      modifies `trace
      ensures !r.Refused? && (r.Cut? ==> cut.Some?)
      ensures View() == old(View())
    {
      r := Hit(Quiet(kind, node));
    }

    method Write(slot: Slot, value: Value) returns (r: Outcome<()>)
      modifies `journal, `trace
      ensures r.Done? ==> slot !in old(journal) && journal == old(journal)[slot := value]
      ensures r.Refused? ==> slot in old(journal) && journal == old(journal)
      ensures r.Cut? ==> cut.Some?
      ensures journal == old(journal) || (slot !in old(journal) && journal == old(journal)[slot := value])
      ensures old(InStep()) && slot !in old(journal) && KnownOwner(ev.plan, slot.owner)
              && RecordJustified(old(journal)[slot := value], old(View()).value.applied, slot, value)
              ==> && View().Some? && View().value.records == journal
                  && View().value.intents == old(View()).value.intents
                  && View().value.applied == old(View()).value.applied
                  && (r.Done? ==> InStep())
    {
      hide RecordJustified, KnownOwner, Accept, ReplayOn, AcceptNext, Uncounted, Seen;
      if InStep() && slot !in journal && KnownOwner(ev.plan, slot.owner)
         && RecordJustified(journal[slot := value], View().value.applied, slot, value) {
        WriteIsAccepted(ev.plan, ViewInStep(), slot, value);
      }
      var _ :- Hit(JournalItem(BEFORE, slot, ev.plan.tx, slot, value));
      if slot in journal { return Refused; }
      journal := journal[slot := value];
      var _ :- Hit(JournalItem(STORED, slot, ev.plan.tx, slot, value));
      var _ :- Hit(JournalItem(ACK, slot, ev.plan.tx, slot, value));
      return Done(());
    }

    /** The next record of step n. */
    method WriteStep(slot: Slot, v: Value, ghost n: nat, ghost k: nat, ghost fired: bool) returns (r: Outcome<()>)
      requires At(n, k, fired) && Watched()
      requires n < |AllSteps(ev)| && k < 8 && slot == SlotAt(AllSteps(ev)[n], k)
      requires EvidenceOk(ev) && ValueOk(ev, journal, n, k, v) && (k == 4 ==> fired)
      modifies `journal, `trace
      ensures !r.Refused?
      ensures r.Done? ==> journal == old(journal)[slot := v] && Reached(n, k + 1, fired) && Watched()
      ensures r.Cut? ==> cut.Some? && Stopped(n)
    {
      hide AtStage, EvidenceOk, ValueOk, Follows, StoppedIn, AllSteps, RecordJustified, KnownOwner, UnknownEffects, ReplayOn, Seen;
      StepRecordFits(ev, W(), n, k, fired, v, View());
      ghost var w, w' := W(), Recorded(ev, W(), n, k, v);
      SyncMayStop(ev, View(), W(), n, k, fired);
      r := Write(slot, v);
      if journal == old(journal) {
        assert W() == w;
        RecordsMayStop(ev, old(View()), w, View(), W(), n, k, fired);
      } else {
        assert W() == w';
        if k < 7 { RecordsMayStop(ev, old(View()), w, View(), W(), n, k + 1, fired); }
        else { RecordsMayStop(ev, old(View()), w, View(), W(), n + 1, 0, false); }
      }
    }

    /** One read-only exchange: the node's services, checked. */
    method Observe(r: nat, before: bool) returns (o: Outcome<()>)
      requires r < |ev.plan.participants|
      modifies `trace
      ensures View() == old(View())
      ensures o.Done? ==> ValidNode(ev.plan, services, r, before)
      ensures o.Refused? ==> !ValidNode(ev.plan, services, r, before)
      ensures o.Cut? ==> cut.Some?
    {
      hide ValidNode, View;
      var node := ev.plan.participants[r].node;
      var _ :- Pass(TransportBefore, node);
      var _ :- Pass(TransportResult, node);
      var _ :- Pass(TransportAck, node);
      if !ValidNode(ev.plan, services, r, before) { return Refused; }
      return Done(());
    }

    /** The composed release chain, evaluated again on the world as it is. */
    method Release(base: Services) returns (o: Outcome<Proof>)
      modifies `trace
      ensures View() == old(View())
      ensures o.Done? ==> o.value == ev.proof && ReleasePasses(ev.plan, base, ev.baseSources, services, sources)
      ensures o.Refused? ==> stage in {NEW, HELD_MODEL} || !ReleasePasses(ev.plan, base, ev.baseSources, services, sources)
      ensures o.Cut? ==> cut.Some?
    {
      hide ValidNode, ReleaseGate, ValidSources, View;
      for r := 0 to |ev.plan.participants|
        invariant View() == old(View())
        invariant forall i | 0 <= i < r :: ValidNode(ev.plan, services, i, false)
      {
        var _ :- Observe(r, false);
      }
      if !ReleaseGate(ev.plan, base, services) { return Refused; }
      if stage in {NEW, HELD_MODEL} || !ReleasePasses(ev.plan, base, ev.baseSources, services, sources) { return Refused; }
      return Done(ev.proof);
    }

    /** The grant provider: recompute, find the position, publish once, read back
        and look again.  It answers exactly as its specification does. */
    method Authorize(request: Request, executor: string, before: UnitState) returns (r: Outcome<Issuance>)
      modifies `journal, `trace
      ensures var spec := old(Authorization(ev, Snapshot(services, sources), journal, ev.now, request, executor, before));
              match spec
              case None => r.Refused? && journal == old(journal) && trace == old(trace)
              case Some(g) =>
                && (r.Done? ==> r.value == g && journal == Publish(old(journal), g))
                && (r.Cut? ==> cut.Some? && (journal == old(journal) || journal == Publish(old(journal), g)))
                && !r.Refused?
      ensures old(InStep()) && KnownOwner(ev.plan, Node(request.node))
              ==> && View().Some? && View().value.records == journal
                  && View().value.intents == old(View()).value.intents
                  && View().value.applied == old(View()).value.applied
                  && (r.Done? ==> InStep())
    {
      hide Evaluate, Phase, RecordJustified, KnownOwner, View, IssuanceFor, Publish;
      var server := Evaluate(ev, Snapshot(services, sources), request, executor, before);
      if server.None? { return Refused; }
      EvaluatedGrant(ev, Snapshot(services, sources), request, executor, before);
      var view := CheckPhase(ev, journal, ev.now, request);
      if view.None? { return Refused; }
      var g := IssuanceFor(ev, view.value, server.value);
      var slot := Local(StepOf(request), GRANT);
      if view.value.current != None && view.value.current != Some(VIssuance(g)) { return Refused; }
      IssueGrant(ev, journal, server.value, view.value, view);
      if view.value.current == None {
        GrantIsJustified(StepOf(request), VIssuance(g));
        var _ :- Write(slot, VIssuance(g));
      }
      if Lookup(journal, slot) != Some(VIssuance(g)) { return Refused; }
      var after := CheckPhase(ev, journal, ev.now, request);
      if after != Some(view.value.(current := Some(VIssuance(g)))) { return Refused; }
      return Done(g);
    }

    /** The one command an executor may run: announced, applied, acknowledged. */
    method Command(request: Request, ghost n: nat) returns (r: Outcome<()>)
      requires At(n, 4, false) && Watched() && n < |AllSteps(ev)|
      requires request == Req(ev, AllSteps(ev)[n]) && pending == Some(request)
      modifies `services, `sources, `effects, `trace
      ensures !r.Refused?
      ensures r.Done? ==> At(n, 4, true) && Watched() && effects == old(effects) + [StepOf(request)]
      ensures r.Done? ==>
                var spot := Spot(request.node, request.unit);
                && spot in old(services) && spot in old(sources) && spot in ev.baseSources
                && services == old(services)[spot := if request.op == UNMASK then old(services)[spot].(masked := false)
                                                     else Service(true, old(services)[spot].masked, Running)]
                && sources == old(sources)[spot := if request.op == UNMASK
                                                   then Source(None, old(sources)[spot].vendor, ev.baseSources[spot].effective)
                                                   else old(sources)[spot]]
      ensures r.Cut? ==> cut.Some? && Stopped(n)
    {
      hide AtStage, EvidenceOk, AllSteps, InSync, StoppedIn, AcceptNext, Uncounted, Req, UnitAfter;
      RequestStep(ev, n);
      ghost var announced := AnnouncementFits(ev, W(), n, View());
      SyncMeansFollowing(ev, View(), W());
      ApplicationFits(ev, W(), n, View(), announced);
      EffectIsNew(ev, W(), n, 4);
      var step, spot := StepOf(request), StepOf(request).spot;
      ghost var w := W();
      if pending != Some(request) { return Refused; }
      var _ :- Hit(EffectBefore(step, request));
      if step in effects { return Refused; }
      services := services[spot := Effect(step.op, services[spot])];
      sources := sources[spot := EffectSource(step.op, sources[spot], ev.baseSources[spot])];
      effects := effects + [step];
      assert W() == Commanded(ev, w, step);
      var _ :- Hit(EffectApplied(step, request, UnitState(services[spot], sources[spot])));
      var _ :- Hit(EffectAck(step, 0));
      return Done(());
    }

    /** Executor.execute for the pending step. */
    method Execute(request: Request, process: int, ghost n: nat) returns (r: Outcome<Receipt>)
      requires At(n, 2, false) && Watched() && n < |AllSteps(ev)|
      requires request == Req(ev, AllSteps(ev)[n]) && pending == Some(request)
      modifies `journal, `services, `sources, `effects, `trace
      ensures !r.Refused?
      ensures r.Done? ==> At(n, 5, true) && Watched() && Lookup(journal, Local(StepOf(request), DONE)) == Some(VReceipt(r.value))
      ensures r.Done? ==> r.value.request == request && r.value.exitCode == 0 && r.value.startedAt == r.value.finishedAt == ev.now
      ensures r.Done? ==>
                var spot := Spot(request.node, request.unit);
                && spot in old(services) && spot in old(sources) && spot in ev.baseSources
                && services == old(services)[spot := if request.op == UNMASK then old(services)[spot].(masked := false)
                                                     else Service(true, old(services)[spot].masked, Running)]
                && sources == old(sources)[spot := if request.op == UNMASK
                                                   then Source(None, old(sources)[spot].vendor, ev.baseSources[spot].effective)
                                                   else old(sources)[spot]]
                && effects == old(effects) + [StepOf(request)]
                && r.value.after == UnitState(services[spot], sources[spot])
      ensures r.Done? ==>
                var i, spot := r.value.intent, Spot(request.node, request.unit);
                && Lookup(journal, Slot(Node(request.node), EffectKey(StepOf(request), INTENT))) == Some(VLocalIntent(i))
                && i.request == request && i.process == process && i.before == UnitState(old(services)[spot], old(sources)[spot])
                && i.grant.request == request && i.grant.executor == i.executor && i.grant.before == i.before
                && i.grant.issuedAt == ev.issuedAt && i.grant.expiresAt == ev.expiresAt && i.grant.after == r.value.after.source
                && forall row | 0 <= row < |ev.plan.participants| && ev.plan.participants[row].node == request.node ::
                     i.executor == ev.plan.participants[row].afterPackage && request.bootId == ev.plan.participants[row].bootId
      ensures r.Cut? ==> cut.Some? && Stopped(n)
    {
      hide AtStage, EvidenceOk, AllSteps, InSync, StoppedIn, View, Req, UnitBefore, UnitAfter, IssuanceAt, ValueOk, Publish, RecordOk, Rows, ServerAt;
      hide ValidPlan, ValidServices, Predecessor, Postcondition, Authorization;
      RequestStep(ev, n);
      ExecutorFacts(ev, W(), n);
      RowFacts(ev, request);
      var step, spot := StepOf(request), StepOf(request).spot;
      if Local(step, INTENT) in journal || Local(step, DONE) in journal { return Refused; }
      if !ValidPlan(ev.plan, ev.now) || !ValidServices(ev.plan, ev.base, true) { return Refused; }
      var desired := ev.base[spot];
      if desired.masked || (step.op == START && !desired.active) { return Refused; }
      var before := UnitState(services[spot], sources[spot]);
      if !Predecessor(ev.plan.table, desired, before.service, request.unit, request.op) { return Refused; }
      var executor := AfterPackage(ev.plan, request.node);
      var issued :- AuthorizePending(request, executor, before, n, 2);
      IssuanceOk(ev, journal, n);
      var grant := issued.grant;
      if !(grant.request == request && grant.executor == executor && grant.before == before && grant.op == request.op
           && grant.issuedAt <= ev.now <= grant.expiresAt && 0 < grant.expiresAt - grant.issuedAt <= 300) { return Refused; }
      var intent := LocalIntent(request, executor, before, grant, process);
      IntentFits(ev, W(), n, intent, issued);
      IssuanceStays(ev, journal, n, 3, VLocalIntent(intent));
      var _ :- WriteStep(Local(step, INTENT), VLocalIntent(intent), n, 3, false);
      r := CarryOut(request, executor, before, issued, intent, n);
    }

    /** The rest of execute, once the intent is on record: everything read again, the
        command, its result checked, the receipt on record. */
    method CarryOut(request: Request, executor: string, before: UnitState, issued: Issuance, intent: LocalIntent, ghost n: nat)
      returns (r: Outcome<Receipt>)
      requires At(n, 4, false) && Watched() && n < |AllSteps(ev)| && EvidenceOk(ev)
      requires request == Req(ev, AllSteps(ev)[n]) && pending == Some(request)
      requires executor == AfterPackage(ev.plan, request.node) && before == UnitBefore(ev, n)
      requires issued == IssuanceAt(ev, journal, n) && intent.grant == issued.grant && intent.before == before
      requires Lookup(journal, Local(StepOf(request), INTENT)) == Some(VLocalIntent(intent))
      modifies `journal, `services, `sources, `effects, `trace
      ensures !r.Refused?
      ensures r.Done? ==> At(n, 5, true) && Watched() && Lookup(journal, Local(StepOf(request), DONE)) == Some(VReceipt(r.value))
      ensures r.Done? ==> r.value.request == request && r.value.exitCode == 0 && r.value.startedAt == r.value.finishedAt == ev.now
      ensures r.Done? ==>
                var spot := Spot(request.node, request.unit);
                && spot in old(services) && spot in old(sources) && spot in ev.baseSources
                && services == old(services)[spot := if request.op == UNMASK then old(services)[spot].(masked := false)
                                                     else Service(true, old(services)[spot].masked, Running)]
                && sources == old(sources)[spot := if request.op == UNMASK
                                                   then Source(None, old(sources)[spot].vendor, ev.baseSources[spot].effective)
                                                   else old(sources)[spot]]
                && effects == old(effects) + [StepOf(request)]
                && r.value.after == UnitState(services[spot], sources[spot])
      ensures r.Done? ==> r.value.intent == intent && Lookup(journal, Local(StepOf(request), INTENT)) == Some(VLocalIntent(intent))
      ensures r.Done? ==> r.value.after.source == intent.grant.after
      ensures r.Cut? ==> cut.Some? && Stopped(n)
    {
      hide AtStage, EvidenceOk, AllSteps, InSync, StoppedIn, View, Req, UnitBefore, UnitAfter, IssuanceAt, ValueOk, Publish;
      hide Authorization;
      RequestStep(ev, n);
      UnitInWorld(ev, W(), n, 4, false);
      var step, spot, grant := StepOf(request), StepOf(request).spot, issued.grant;
      var again :- AuthorizePending(request, executor, before, n, 4);
      if again.grant != grant || UnitState(services[spot], sources[spot]) != before
         || Lookup(journal, Local(step, INTENT)) != Some(VLocalIntent(intent)) { return Refused; }
      var _ :- Command(request, n);
      ExecutedFacts(ev, W(), n, again);
      var after := UnitState(services[spot], sources[spot]);
      if after.service.masked
         || (if request.op == START then !after.service.active else after.service.active != before.service.active) { return Refused; }
      if after.source != grant.after || after.source.vendor != before.source.vendor { return Refused; }
      if request.op == START && after.source != before.source { return Refused; }
      var receipt := Receipt(request, intent, after, 0, ev.now, ev.now);
      ReceiptFits(ev, journal, n, intent, receipt);
      var _ :- WriteStep(Local(step, DONE), VReceipt(receipt), n, 4, true);
      return Done(receipt);
    }

    /** authorize, called for the step whose turn it is: the first call issues the
        grant, a second one can only repeat it. */
    method AuthorizePending(request: Request, executor: string, before: UnitState, ghost n: nat, ghost k: nat)
      returns (r: Outcome<Issuance>)
      requires At(n, k, false) && Watched() && n < |AllSteps(ev)| && k in {2, 4}
      requires EvidenceOk(ev) && request == Req(ev, AllSteps(ev)[n])
      requires executor == AfterPackage(ev.plan, request.node) && before == UnitBefore(ev, n)
      modifies `journal, `trace
      ensures !r.Refused?
      ensures r.Done? ==> At(n, if k == 2 then 3 else 4, false) && Watched()
      ensures r.Done? ==> r.value == IssuanceAt(ev, journal, n) && (k == 4 ==> journal == old(journal))
      ensures r.Cut? ==> cut.Some? && Stopped(n)
    {
      hide AtStage, EvidenceOk, AllSteps, InSync, StoppedIn, View, Req, UnitBefore, IssuanceAt, Publish, Authorization;
      RequestStep(ev, n);
      AuthorizationFits(ev, W(), n, k);
      StepOwnerIsKnown(ev, n, 2);
      ghost var w, view := W(), View();
      SyncMeansFollowing(ev, view, w);
      r := Authorize(request, executor, before);
      if journal == w.journal {
        assert W() == w;
        RecordsMayStop(ev, view, w, View(), W(), n, k, false);
      } else {
        assert W() == w.(journal := Publish(w.journal, IssuanceAt(ev, w.journal, n)));
        RecordsMayStop(ev, view, w, View(), W(), n, 3, false);
      }
    }

    /** One exchange with the node, which executes the effect. */
    method Exchange(request: Request, process: int, ghost n: nat) returns (r: Outcome<Receipt>)
      requires At(n, 2, false) && Watched() && n < |AllSteps(ev)|
      requires request == Req(ev, AllSteps(ev)[n]) && pending == Some(request)
      modifies `journal, `services, `sources, `effects, `trace
      ensures !r.Refused?
      ensures r.Done? ==> At(n, 5, true) && Watched() && Lookup(journal, Local(StepOf(request), DONE)) == Some(VReceipt(r.value))
      ensures r.Done? ==> r.value.request == request && r.value.exitCode == 0 && r.value.startedAt == r.value.finishedAt == ev.now
      ensures r.Cut? ==> cut.Some? && Stopped(n)
    {
      hide AtStage, EvidenceOk, AllSteps, InSync, StoppedIn, View, Req;
      SyncMayStop(ev, View(), W(), n, 2, false);
      var _ :- Pass(TransportBefore, request.node);
      r := Execute(request, process, n);
      if !r.Done? { return; }
      SyncMayStop(ev, View(), W(), n, 5, true);
      var _ :- Pass(TransportResult, request.node);
      var _ :- Pass(TransportAck, request.node);
    }

    /** The transport's dispatch_restore_once: attempt on record, one exchange, the
        receipt and the completion on record. */
    method Dispatch(request: Request, process: int, ghost n: nat) returns (r: Outcome<Receipt>)
      requires At(n, 1, false) && Watched() && n < |AllSteps(ev)|
      requires request == Req(ev, AllSteps(ev)[n]) && pending == Some(request)
      requires stage == RESTORING && StepOf(request) !in attempted
      modifies `journal, `services, `sources, `effects, `trace, `attempted, `nonces
      ensures !r.Refused?
      ensures r.Done? ==> At(n, 7, true) && Watched() && attempted == old(attempted) + {StepOf(request)}
      ensures r.Done? ==> r.value.request == request
      ensures r.Cut? ==> cut.Some? && Stopped(n)
    {
      hide AtStage, EvidenceOk, AllSteps, InSync, StoppedIn, View, Req, ValueOk;
      RequestStep(ev, n);
      DispatchFacts(ev, W(), n);
      var step := StepOf(request);
      if step in attempted { return Refused; }
      if TransportSlot(step, false) in journal || TransportSlot(step, true) in journal || ReceiptSlot(step) in journal {
        return Refused;
      }
      if !(stage == RESTORING && pending == Some(request) && Lookup(journal, Central(step, INTENT)) == Some(VRequest(request))
           && Central(step, DONE) !in journal) { return Refused; }
      attempted := attempted + {step};
      nonces := nonces + 1;
      AttemptFits(ev, journal, n, VAttempt(request, nonces));
      var _ :- WriteStep(TransportSlot(step, false), VAttempt(request, nonces), n, 1, false);
      var receipt :- Exchange(request, process, n);
      if !(receipt.request == request && receipt.exitCode == 0 && receipt.startedAt <= receipt.finishedAt <= ev.now) {
        return Refused;
      }
      CopyFits(ev, journal, n, VReceipt(receipt));
      var _ :- WriteStep(ReceiptSlot(step), VReceipt(receipt), n, 5, true);
      CompletionFits(ev, W(), n);
      var _ :- WriteStep(TransportSlot(step, true), VTransported(journal[TransportSlot(step, false)], VReceipt(receipt)), n, 6, true);
      return Done(receipt);
    }

    ghost predicate Resting(n: nat)
      reads `stage, `pending, `attempted
    {
      stage == RESTORING && pending == None && n <= |AllSteps(ev)| && attempted <= DoneSteps(ev.plan, ev.base, n)
    }

    method DispatchTyped(request: Request, process: int, ghost n: nat) returns (r: Outcome<()>)
      requires At(n, 1, false) && Watched() && n < |AllSteps(ev)|
      requires request == Req(ev, AllSteps(ev)[n]) && Resting(n)
      modifies `journal, `services, `sources, `effects, `trace, `attempted, `nonces, `pending
      ensures !r.Refused?
      ensures r.Done? ==> At(n, 7, true) && Watched() && Resting(n + 1)
      ensures r.Cut? ==> cut.Some? && Stopped(n)
    {
      hide AtStage, EvidenceOk, AllSteps, InSync, StoppedIn, View, Req, DoneSteps;
      DispatchFacts(ev, W(), n);
      NotYetSeen(ev, n);
      RequestStep(ev, n);
      AttemptedGrows(ev, n);
      if pending != None { return Refused; }
      pending := Some(request);
      var receipt := Dispatch(request, process, n);
      pending := None;
      if receipt.IsFailure() { return receipt.PropagateFailure(); }
      if receipt.value.request != request { return Refused; }
      return Done(());
    }

    /** A step whose turn has come and of which nothing is on record yet. */
    method PerformStep(row: nat, step: Step, baseline: Baseline, release: Proof, process: int, ghost n: nat)
      returns (r: Outcome<()>)
      requires At(n, 0, false) && Watched() && Resting(n) && n < |AllSteps(ev)| && step == AllSteps(ev)[n]
      requires row < |ev.plan.participants| && ev.plan.participants[row].node == step.spot.node
      requires baseline == BaselineOf(ev) && release == ev.proof && step.spot in services
      modifies `journal, `services, `sources, `effects, `trace, `attempted, `nonces, `pending
      ensures !r.Refused?
      ensures r.Done? ==> At(n + 1, 0, false) && Watched() && Resting(n + 1)
      ensures r.Cut? ==> cut.Some? && Stopped(n)
    {
      hide AtStage, EvidenceOk, AllSteps, InSync, StoppedIn, View, ReleasePasses, ValidNode, Postcondition, ValueOk, DoneSteps;
      RequestFits(ev, W(), n);
      var request := RequestOf(ev.plan, baseline, release, step);
      var current := services[step.spot];
      var _ :- WriteStep(Central(step, INTENT), VRequest(request), n, 0, false);
      SyncMayStop(ev, View(), W(), n, 1, false);
      ReleasePassesHere(ev, W(), n, 1, false);
      var _ :- Observe(row, false);
      if services[step.spot] != current { return Refused; }
      var proof :- Release(baseline.records);
      if proof != release { return Refused; }
      var _ :- DispatchTyped(request, process, n);
      SyncMayStop(ev, View(), W(), n, 7, true);
      ReleasePassesHere(ev, W(), n, 7, true);
      var _ :- Observe(row, false);
      ConfirmationFits(ev, W(), n);
      if !Postcondition(step.op, services[step.spot]) { return Refused; }
      var _ :- WriteStep(Central(step, DONE), VConfirmed(request), n, 7, true);
      return Done(());
    }

    /** The restoration loops stand before the steps `rest`, c of them behind; the
        first n are complete on record and k records of the next one are there. */
    ghost predicate Passing(c: nat, rest: seq<Step>, n: nat, k: nat, fired: bool)
      reads `trace, `origin, `journal, `services, `sources, `effects, `stage, `pending, `attempted
    {
      At(n, k, fired) && Watched() && Resting(n) && c <= n && AllSteps(ev)[c..] == rest
    }

    /** The loop body for a wanted step: skip it if it is complete on record, refuse
        if it was begun and not completed, perform it otherwise. */
    method HandleStep(row: nat, step: Step, baseline: Baseline, release: Proof, process: int,
                      ghost c: nat, ghost rest: seq<Step>, ghost n0: nat, ghost k: nat, ghost fired: bool)
      returns (o: Outcome<()>, ghost n: nat)
      requires Passing(c, [step] + rest, n0, k, fired)
      requires row < |ev.plan.participants| && ev.plan.participants[row].node == step.spot.node
      requires baseline == BaselineOf(ev) && release == ev.proof
      modifies `journal, `services, `sources, `effects, `trace, `attempted, `nonces, `pending
      ensures n0 <= n && (k > 0 ==> n == n0 && W() == old(W()))
      ensures o.Done? ==> Passing(c + 1, rest, n, k, fired)
      ensures o.Refused? ==> k > 0
      ensures o.Cut? ==> cut.Some? && Stopped(n)
    {
      hide AtStage, EvidenceOk, AllSteps, InSync, StoppedIn, View, ReleasePasses, ValidNode, Predecessor, DoneSteps, RequestOf;
      n := n0;
      NextInList(AllSteps(ev), c, step, rest);
      StepFacts(ev, W(), n, k, fired, c);
      SyncMayStop(ev, View(), W(), n, k, fired);
      ReleasePassesHere(ev, W(), n, k, fired);
      var proof := Release(baseline.records);
      if !proof.Done? { o := proof.PropagateFailure(); return; }
      if proof.value != release || Lookup(journal, Slot(Coordinator, BaselineKey)) != Some(VBaseline(baseline)) {
        o := Refused; return;
      }
      o := Observe(row, false);
      if !o.Done? { return; }
      var current := services[step.spot];
      var request := RequestOf(ev.plan, baseline, release, step);
      var intent, done := Lookup(journal, Central(step, INTENT)), Lookup(journal, Central(step, DONE));
      if intent.Some? || done.Some? {
        if !(intent == Some(VRequest(request)) && done == Some(VConfirmed(request))) { o := Refused; return; }
      } else {
        if !(if step.op == UNMASK then current.masked else !current.active && !current.masked) { o := Refused; return; }
        o := PerformStep(row, step, baseline, release, process, n);
        if !o.Done? { return; }
        n := n + 1;
        StepFacts(ev, W(), n, k, fired, c);
        SyncMayStop(ev, View(), W(), n, k, fired);
        ReleasePassesHere(ev, W(), n, k, fired);
      }
      o := Observe(row, false);
      if !o.Done? { return; }
      if services[step.spot].masked || (step.op == START && !services[step.spot].active) { o := Refused; return; }
    }

    method RestoreRow(p: nat, r: nat, baseline: Baseline, release: Proof,
                      ghost c0: nat, ghost n0: nat, ghost k: nat, ghost fired: bool)
      returns (o: Outcome<()>, ghost c: nat, ghost n: nat)
      requires p < PhaseCount(ev.plan.table) && r < |ev.plan.participants|
      requires Passing(c0, StepsFrom(ev.plan, ev.base, p, r, 0, 0), n0, k, fired)
      requires baseline == BaselineOf(ev) && release == ev.proof
      modifies `journal, `services, `sources, `effects, `trace, `attempted, `nonces, `pending
      ensures n0 <= n && (k > 0 ==> n == n0 && W() == old(W()))
      ensures o.Done? ==> Passing(c, StepsFrom(ev.plan, ev.base, p, r + 1, 0, 0), n, k, fired)
      ensures o.Refused? ==> k > 0
      ensures o.Cut? ==> cut.Some? && Stopped(n)
    {
      hide Passing, Stopped, W, StepsFrom, Wanted;
      o, c, n := Done(()), c0, n0;
      var phase, node := PhaseUnits(ev.plan.table, p), ev.plan.participants[r].node;
      for u := 0 to |phase|
        invariant n0 <= n && (k > 0 ==> n == n0 && W() == old(W())) && o.Done?
        invariant Passing(c, StepsFrom(ev.plan, ev.base, p, r, u, 0), n, k, fired)
      {
        for i := 0 to 2
          invariant n0 <= n && (k > 0 ==> n == n0 && W() == old(W())) && o.Done?
          invariant Passing(c, StepsFrom(ev.plan, ev.base, p, r, u, i), n, k, fired)
        {
          NextStep(ev.plan, ev.base, Place(p, r, u, i));
          var step := Step(Spot(node, phase[u]), OpAt(i));
          if Wanted(ev.plan, baseline.records, step) {
            o, n := HandleStep(r, step, baseline, release, 100 + r, c, StepsFrom(ev.plan, ev.base, p, r, u, i + 1), n, k, fired);
            if !o.Done? { return; }
            c := c + 1;
          } else {
            assert StepsFrom(ev.plan, ev.base, p, r, u, i) == StepsFrom(ev.plan, ev.base, p, r, u, i + 1);
          }
        }
        NextUnit(ev.plan, ev.base, p, r, u);
      }
      NextRow(ev.plan, ev.base, p, r);
    }

    method RestorePhase(p: nat, baseline: Baseline, release: Proof,
                        ghost c0: nat, ghost n0: nat, ghost k: nat, ghost fired: bool)
      returns (o: Outcome<()>, ghost c: nat, ghost n: nat)
      requires p < PhaseCount(ev.plan.table)
      requires Passing(c0, StepsFrom(ev.plan, ev.base, p, 0, 0, 0), n0, k, fired)
      requires baseline == BaselineOf(ev) && release == ev.proof
      modifies `journal, `services, `sources, `effects, `trace, `attempted, `nonces, `pending
      ensures n0 <= n && (k > 0 ==> n == n0 && W() == old(W()))
      ensures o.Done? ==> Passing(c, StepsFrom(ev.plan, ev.base, p + 1, 0, 0, 0), n, k, fired)
      ensures o.Refused? ==> k > 0
      ensures o.Cut? ==> cut.Some? && Stopped(n)
    {
      hide Passing, Stopped, W, StepsFrom;
      o, c, n := Done(()), c0, n0;
      for r := 0 to |ev.plan.participants|
        invariant n0 <= n && (k > 0 ==> n == n0 && W() == old(W())) && o.Done?
        invariant Passing(c, StepsFrom(ev.plan, ev.base, p, r, 0, 0), n, k, fired)
      {
        o, c, n := RestoreRow(p, r, baseline, release, c, n, k, fired);
        if !o.Done? { return; }
      }
      NextPhase(ev.plan, ev.base, p);
    }

    /** Coordinator.restore on whatever a run before it left behind. */
    method Restore(ghost n0: nat, ghost k: nat, ghost fired: bool) returns (o: Outcome<()>, ghost n: nat)
      requires At(n0, k, fired) && Watched() && Resting(n0)
      modifies `journal, `services, `sources, `effects, `trace, `attempted, `nonces, `pending, `poisoned
      ensures n0 <= n && (k > 0 ==> n == n0 && W() == old(W()))
      ensures o.Done? ==> n == |AllSteps(ev)| && k == 0 && At(n, 0, false) && Watched()
      ensures o.Done? ==> services == ev.base && effects == AllSteps(ev)
      ensures o.Done? ==> forall spot | spot in ev.base && !ev.base[spot].masked && spot.unit in BarrierMasks(ev.plan.table) ::
                spot in sources && spot in ev.baseSources && sources[spot] == ev.baseSources[spot]
      ensures o.Refused? ==> k > 0 || old(poisoned)
      ensures o.Refused? ==> W() == old(W()) && n == n0
      ensures o.Cut? ==> cut.Some? && Stopped(n)
      ensures poisoned == (old(poisoned) || !o.Done?)
    {
      n := n0;
      if poisoned { o := Refused; return; }
      ghost var c: nat;
      o, c, n := RestoreAll(n0, k, fired);
      poisoned := !o.Done?;
      if o.Done? { SourcesAreBack(ev, W(), n, 0, false); }
    }

    method CheckRestored(base: Services) returns (o: Outcome<()>)
      modifies `trace
      ensures View() == old(View())
      ensures o.Done? ==> forall r | 0 <= r < |ev.plan.participants| :: NodeRestored(ev.plan, base, services, r)
      ensures o.Refused? ==> exists r | 0 <= r < |ev.plan.participants| ::
                !ValidNode(ev.plan, services, r, false) || !NodeRestored(ev.plan, base, services, r)
      ensures o.Cut? ==> cut.Some?
    {
      hide ValidNode, NodeRestored, View;
      for r := 0 to |ev.plan.participants|
        invariant View() == old(View())
        invariant forall i | 0 <= i < r :: NodeRestored(ev.plan, base, services, i)
      {
        var _ :- Observe(r, false);
        if !NodeRestored(ev.plan, base, services, r) { return Refused; }
      }
      return Done(());
    }

    method RestoreAll(ghost n0: nat, ghost k: nat, ghost fired: bool) returns (o: Outcome<()>, ghost c: nat, ghost n: nat)
      requires At(n0, k, fired) && Watched() && Resting(n0)
      modifies `journal, `services, `sources, `effects, `trace, `attempted, `nonces, `pending
      ensures n0 <= n && (k > 0 ==> n == n0 && W() == old(W()))
      ensures o.Done? ==> n == |AllSteps(ev)| && k == 0 && At(n, 0, false) && Watched()
      ensures o.Done? ==> services == ev.base && effects == AllSteps(ev)
      ensures o.Refused? ==> k > 0
      ensures o.Cut? ==> cut.Some? && Stopped(n)
    {
      hide AtStage, EvidenceOk, AllSteps, InSync, StoppedIn, View, ReleasePasses, ValidNode, ValidServices, DoneSteps, StepsFrom;
      c, n := 0, n0;
      StartFacts(ev, W(), n, k, fired);
      SyncMayStop(ev, View(), W(), n, k, fired);
      ReleasePassesHere(ev, W(), n, k, fired);
      var stored := Lookup(journal, Slot(Coordinator, BaselineKey));
      if !(stored.Some? && stored.value.VBaseline? && stored.value.baseline.plan == ev.plan
           && ValidServices(ev.plan, stored.value.baseline.records, true)) { o := Refused; return; }
      var baseline := stored.value.baseline;
      var release := Release(baseline.records);
      if !release.Done? { o := release.PropagateFailure(); return; }
      o := Done(());
      for p := 0 to PhaseCount(ev.plan.table)
        invariant n0 <= n && (k > 0 ==> n == n0 && W() == old(W())) && o.Done?
        invariant Passing(c, StepsFrom(ev.plan, ev.base, p, 0, 0, 0), n, k, fired)
      {
        o, c, n := RestorePhase(p, baseline, release.value, c, n, k, fired);
        if !o.Done? { return; }
      }
      EndFacts(ev, W(), n, k, fired, c);
      SyncMayStop(ev, View(), W(), n, k, fired);
      ReleasePassesHere(ev, W(), n, k, fired);
      o := CheckRestored(baseline.records);
      if !o.Done? { return; }
      var final := Release(baseline.records);
      if !final.Done? { o := final.PropagateFailure(); return; }
      if final.value != release.value { o := Refused; return; }
    }

    // ----- hold -----

    /** In step, and no effect has been announced. */
    ghost predicate Idle()
      reads `trace, `origin, `journal, `effects
    {
      InStep() && View().value.intents == map[] && View().value.applied == map[] && effects == []
    }

    /** As Idle, but possibly cut in the middle of a write. */
    ghost predicate Silent()
      reads `trace, `origin
    {
      View().Some? && View().value.intents == map[]
    }

    /** A record that admits the run to its next part. */
    method Admit(slot: Slot, value: Value) returns (r: Outcome<()>)
      requires Idle() && slot.owner == Coordinator && !StepRecord(slot.key)
      modifies `journal, `trace
      ensures r.Done? ==> Idle() && slot !in old(journal) && journal == old(journal)[slot := value]
      ensures r.Refused? ==> slot in old(journal)
      ensures r.Cut? ==> cut.Some? && (slot !in old(journal) ==> Silent())
    {
      hide RecordJustified, KnownOwner, View;
      AdmissionIsJustified(ev.plan, slot, value);
      r := Write(slot, value);
    }

    /** Coordinator.baseline: two full passes over the cohort, then the record. */
    method CaptureBaseline() returns (r: Outcome<()>)
      requires Idle()
      modifies `journal, `trace
      ensures r.Done? ==> Idle() && Slot(Coordinator, BaselineKey) !in old(journal)
      ensures r.Done? ==> journal == old(journal)[Slot(Coordinator, BaselineKey) := VBaseline(Baseline(ev.plan, services))]
      ensures r.Done? ==> forall i | 0 <= i < |ev.plan.participants| :: ValidNode(ev.plan, services, i, true)
      ensures r.Refused? ==> Slot(Coordinator, BaselineKey) in old(journal)
                             || exists i | 0 <= i < |ev.plan.participants| :: !ValidNode(ev.plan, services, i, true)
      ensures r.Refused? ==> Idle()
      ensures r.Cut? ==> cut.Some? && Silent()
    {
      hide ValidNode, View;
      if Slot(Coordinator, BaselineKey) in journal { return Refused; }
      r := ObserveAll(true);
      if !r.Done? { return; }
      r := ObserveAll(true);
      if !r.Done? { return; }
      r := Admit(Slot(Coordinator, BaselineKey), VBaseline(Baseline(ev.plan, services)));
    }

    method ObserveAll(before: bool) returns (o: Outcome<()>)
      modifies `trace
      ensures View() == old(View())
      ensures o.Done? ==> forall i | 0 <= i < |ev.plan.participants| :: ValidNode(ev.plan, services, i, before)
      ensures o.Refused? ==> exists i | 0 <= i < |ev.plan.participants| :: !ValidNode(ev.plan, services, i, before)
      ensures o.Cut? ==> cut.Some?
    {
      hide ValidNode, View;
      for r := 0 to |ev.plan.participants|
        invariant View() == old(View())
        invariant forall i | 0 <= i < r :: ValidNode(ev.plan, services, i, before)
      {
        var _ :- Observe(r, before);
      }
      return Done(());
    }

    method BarrierObserve(r: nat) returns (o: Outcome<Barrier.Observation>)
      requires r < |ev.plan.participants|
      modifies `trace
      ensures View() == old(View()) && !o.Refused?
      ensures o.Done? ==> o.value == BarrierObservation(ev.plan, services, r)
      ensures o.Cut? ==> cut.Some?
    {
      hide View;
      var _ :- Pass(BarrierObserveBefore, ev.plan.participants[r].node);
      var _ :- Pass(BarrierObserveAck, ev.plan.participants[r].node);
      return Done(BarrierObservation(ev.plan, services, r));
    }

    /** mask_persistent and drain_services: one node's units masked and stopped. */
    method BarrierEffect(node: string, units: set<string>) returns (r: Outcome<()>)
      modifies `trace, `services
      ensures View() == old(View()) && !r.Refused?
      ensures r.Done? ==> services == MaskNode(ev.plan, old(services), node, units)
      ensures r.Cut? ==> cut.Some?
    {
      hide View, MaskNode;
      var _ :- Pass(BarrierEffectBefore, node);
      services := MaskNode(ev.plan, services, node, units);
      var _ :- Pass(BarrierEffectApplied, node);
      return Done(());
    }

    /** One action of the barrier: intent and attempt on record, the effect, the
        receipt checked and on record. */
    method HoldAction(index: nat) returns (r: Outcome<()>)
      requires ValidPlan(ev.plan, ev.now) && ValidServices(ev.plan, ev.base, true)
      requires index < 3 * |ev.plan.participants|
      requires Idle() && HoldJournal(ev, journal, 3 * index) && services == HeldThrough(ev.plan, ev.base, index)
      modifies `journal, `trace, `services
      ensures !r.Refused?
      ensures r.Done? ==> Idle() && HoldJournal(ev, journal, 3 * index + 3)
                          && services == HeldThrough(ev.plan, ev.base, index + 1)
      ensures r.Cut? ==> cut.Some? && Silent()
    {
      hide HoldJournal, HeldThrough, BarrierObservation, MaskNode, ValidPlan, ValidServices, View, BarrierMasks, Barrier.Actions;
      hide Barrier.ValidObservation, Barrier.TerminalIngress, Barrier.ForbiddenStops;
      ActionAt(ev.plan, index);
      ActionHolds(ev.plan, ev.base, index);
      ActionChecks(ev, index);
      var action := Barrier.Actions(ev.plan)[index];
      var row := Turn(|ev.plan.participants|, index);
      r := PersistEvent(index, 0, None);
      if !r.Done? { return; }
      r := PersistEvent(index, 1, None);
      if !r.Done? { return; }
      var receipt: Barrier.Receipt;
      if action.step == Barrier.ENTRY_BLOCK {
        r := BarrierEffect(action.node, ev.plan.table.entry);
        if !r.Done? { return; }
        receipt := Barrier.EntryBlocked(ev.plan.table.entry, Barrier.TerminalIngress(ev.plan.table));
      } else if action.step == Barrier.SERVICE_DRAIN {
        r := BarrierEffect(action.node, BarrierMasks(ev.plan.table));
        if !r.Done? { return; }
        var seen := BarrierObservation(ev.plan, services, row);
        if !(Barrier.ValidObservation(ev.plan, action.node, seen, false) && ev.plan.table.entry <= seen.masks
             && Barrier.ForbiddenStops(ev.plan.table) !! seen.stopped) { return Refused; }
        receipt := Barrier.Observed(seen);
      } else {
        var seen :- BarrierObserve(row);
        receipt := Barrier.Observed(seen);
      }
      if !Barrier.ReceiptOk(ev.plan, action, receipt) { return Refused; }
      r := PersistEvent(index, 2, Some(receipt));
    }

    method PersistEvent(index: nat, k: nat, receipt: Option<Barrier.Receipt>) returns (r: Outcome<()>)
      requires Idle() && k < 3 && index < |Barrier.Actions(ev.plan)| && HoldJournal(ev, journal, 3 * index + k)
      requires receipt.Some? <==> k == 2
      requires k == 2 ==> Barrier.ReceiptOk(ev.plan, Barrier.Actions(ev.plan)[index], receipt.value)
      modifies `journal, `trace
      ensures !r.Refused?
      ensures r.Done? ==> Idle() && HoldJournal(ev, journal, 3 * index + k + 1)
      ensures r.Cut? ==> cut.Some? && Silent()
    {
      hide HoldJournal, View, Barrier.Actions, Barrier.ReceiptOk;
      var action := Barrier.Actions(ev.plan)[index];
      var event := Barrier.Event(ev.plan.tx, ev.plan, Barrier.KindAt(k), index, action.step, action.node, receipt);
      EventGoesIn(ev, journal, index, k, event);
      r := Admit(BarrierSlot(index, Barrier.KindAt(k)), VBarrier(event));
    }

    /** The barrier controller's run, on a journal without barrier events. */
    method HoldAll() returns (r: Outcome<()>)
      requires ValidPlan(ev.plan, ev.now) && ValidServices(ev.plan, ev.base, true)
      requires Idle() && HoldJournal(ev, journal, 0) && services == ev.base
      modifies `journal, `trace, `services
      ensures !r.Refused?
      ensures r.Done? ==> Idle() && HoldJournal(ev, journal, 9 * |ev.plan.participants|) && services == Held(ev.plan, ev.base)
      ensures r.Cut? ==> cut.Some? && Silent()
    {
      hide HoldJournal, HeldThrough, ValidPlan, ValidServices, View, Barrier.Actions, Held, Barrier.ValidObservation;
      BaseKeys(ev);
      NoEventsYet(ev, journal, 0);
      EntryGateHolds(ev);
      var n := |ev.plan.participants|;
      if BarrierSlot(0, Barrier.INTENT_DURABLE) in journal { return Refused; }
      r := Preflight(false);
      if !r.Done? { return; }
      for index := 0 to 3 * n
        invariant Idle() && HoldJournal(ev, journal, 3 * index) && services == HeldThrough(ev.plan, ev.base, index)
      {
        if index == n {
          r := Preflight(true);
          if !r.Done? { return; }
        }
        r := HoldAction(index);
        if !r.Done? { return; }
      }
      AllHeld(ev.plan, ev.base, ev.now, 3 * n);
      return Done(());
    }

    /** All nodes observed: before anything is done, and again, now for the entry
        block, before the first drain. */
    method Preflight(entry: bool) returns (r: Outcome<()>)
      modifies `trace
      ensures View() == old(View())
      ensures r.Done? ==> forall i | 0 <= i < |ev.plan.participants| :: PreflightOk(ev.plan, services, i, entry)
      ensures r.Refused? ==> exists i | 0 <= i < |ev.plan.participants| :: !PreflightOk(ev.plan, services, i, entry)
      ensures r.Cut? ==> cut.Some?
    {
      hide View, Barrier.ValidObservation, EntryTerminal, BarrierObservation;
      for i := 0 to |ev.plan.participants|
        invariant View() == old(View())
        invariant forall k | 0 <= k < i :: PreflightOk(ev.plan, services, k, entry)
      {
        var seen :- BarrierObserve(i);
        if !(Barrier.ValidObservation(ev.plan, ev.plan.participants[i].node, seen, false)
             && (entry ==> EntryTerminal(ev.plan, seen))) {
          assert !PreflightOk(ev.plan, services, i, entry);
          return Refused;
        }
      }
      return Done(());
    }

    // ----- the whole run -----

    constructor (ev: Evidence, cut: Option<nat>)
      requires Admissible(ev)
      ensures this.ev == ev && this.cut == cut && Fresh()
    {
      this.ev, this.cut := ev, cut;
      journal, services, sources, effects, trace := map[], ev.base, ev.baseSources, [], [];
      stage, pending, attempted, nonces, poisoned, used := NEW, None, {}, 0, false, false;
      origin := EMPTY;
    }

    ghost predicate Fresh()
      reads this
    {
      && Admissible(ev) && !used && !poisoned && origin == EMPTY
      && journal == map[] && services == ev.base && sources == ev.baseSources && effects == [] && trace == []
      && stage == NEW && pending == None && attempted == {}
    }

    /** IntegrationModel.run: admit, capture, hold, try the validator, archive,
        release, restore.  Whatever event the run is cut at, the inspector accepts
        every event so far and at most one effect is unaccounted for; a run that is
        not cut completes exactly when it can, leaving the services as they were; and
        one that is cut leaves nothing restored or a stage it can be reopened at. */
    method Run() returns (o: Outcome<()>)
      requires used || Fresh()
      modifies this
      ensures used && cut == old(cut) && poisoned == (old(poisoned) || !o.Done?)
      ensures old(used) ==> o.Refused? && W() == old(W()) && trace == old(trace)
      ensures !old(used) ==> origin == EMPTY && Accepted()
      ensures o.Cut? ==> cut.Some?
      ensures o.Done? ==> CanComplete(ev) && services == ev.base && effects == AllSteps(ev)
      ensures o.Done? ==> forall spot | spot in ev.base && !ev.base[spot].masked && spot.unit in BarrierMasks(ev.plan.table) ::
                spot in sources && spot in ev.baseSources && sources[spot] == ev.baseSources[spot]
      ensures o.Done? ==> stage == COMPLETE && Lookup(journal, Slot(Coordinator, CompleteKey)) == Some(VComplete)
      ensures !old(used) && o.Refused? ==> !CanComplete(ev) && effects == []
      ensures !old(used) && o.Cut? ==> if stage in {NEW, HELD_MODEL} then effects == [] else CutAfterRelease()
    {
      hide AllSteps, AtStage, CanComplete, Watched, View, EvidenceOk, InSync, Seen, UnknownEffects;
      if used { poisoned := true; return Refused; }
      used := true;
      o := HoldAndRelease();
      if o.Done? { o := RestoreAndComplete(); } else { SilentIsAccepted(); }
      poisoned := !o.Done?;
    }

    /** Where a run is once its release is on record and it has been cut. */
    ghost predicate CutAfterRelease()
      reads `stage, `journal, `services, `sources, `effects
    {
      || (stage == RESTORING && exists n: nat, k: nat, fired: bool :: At(n, k, fired))
      || (stage == COMPLETE && services == ev.base && effects == AllSteps(ev))
    }

    /** The run up to the release. */
    method HoldAndRelease() returns (o: Outcome<()>)
      requires Admissible(ev) && origin == EMPTY && trace == [] && journal == map[] && effects == []
      requires services == ev.base && sources == ev.baseSources && stage == NEW && pending == None && attempted == {}
      modifies `journal, `trace, `services, `sources, `stage
      ensures o.Done? ==> CanComplete(ev) && At(0, 0, false) && Watched() && Resting(0)
      ensures o.Refused? ==> !CanComplete(ev) && Silent()
      ensures o.Cut? ==> cut.Some? && Silent() && stage in {NEW, HELD_MODEL}
    {
      hide ValidPlan, ValidServices, View, Held, ReleaseJournal, AtStage, CanComplete, Watched, EvidenceOk, Resting;
      o := CaptureAndHold();
      if !o.Done? { return; }
      if CanComplete(ev) { SourcesNeeded(ev); }
      stage := HELD_MODEL;
      if services != ev.held { return Refused; }
      sources := ev.heldSources;
      var possible := TryFirstRequest();
      if !possible { return Refused; }
      o := ArchiveAll();
      if !o.Done? { return; }
      o := PublishRelease();
    }

    method PublishRelease() returns (o: Outcome<()>)
      requires Idle() && EvidenceOk(ev) && Admissible(ev) && ReleaseJournal(ev, journal, |ev.plan.participants|)
      requires services == ev.held && sources == ev.heldSources && pending == None && attempted == {}
      modifies `journal, `trace, `stage
      ensures !o.Refused?
      ensures o.Done? ==> At(0, 0, false) && Watched() && Resting(0)
      ensures o.Cut? ==> cut.Some? && Silent() && stage == old(stage)
    {
      hide View, ReleaseJournal, AtStage, InSync, DoneSteps, Steps, EvidenceOk;
      ReleaseGoesIn(ev, journal);
      o := Admit(Slot(Coordinator, ReleaseKey), VRelease(ev.proof));
      if !o.Done? { return; }
      stage := RESTORING;
      IdleIsFollowed(ev, W(), View());
    }

    method CaptureAndHold() returns (o: Outcome<()>)
      requires Admissible(ev) && origin == EMPTY && trace == [] && journal == map[] && effects == []
      requires services == ev.base
      modifies `journal, `trace, `services
      ensures o.Done? ==> ValidPlan(ev.plan, ev.now) && ValidServices(ev.plan, ev.base, true) && services == Held(ev.plan, ev.base)
      ensures o.Done? ==> Idle() && ReleaseJournal(ev, journal, 0)
      ensures o.Refused? ==> !CanComplete(ev) && Silent()
      ensures o.Cut? ==> cut.Some? && Silent()
    {
      hide ValidPlan, ValidServices, View, ValidNode, HoldJournal, Held, ReleaseJournal, CanComplete, EvidenceOk;
      EmptyIsIdle();
      if CanComplete(ev) { SourcesNeeded(ev); }
      if !ValidPlan(ev.plan, ev.now) || Slot(Coordinator, Started) in journal { return Refused; }
      o := Admit(Slot(Coordinator, Started), VStarted(ev.plan, ev.closure));
      if !o.Done? { return; }
      CohortIsEveryNode(ev.plan, ev.base, true);
      o := CaptureBaseline();
      if !o.Done? { return; }
      if Baseline(ev.plan, services) != BaselineOf(ev) { return Refused; }
      BaselineIsHoldStart(ev, journal);
      o := HoldAll();
      if !o.Done? { return; }
      HeldGoesIn(ev, journal);
      o := Admit(Slot(Coordinator, HeldKey), VHeld);
    }

    lemma {:induction false} EmptyIsIdle()
      requires journal == map[] && trace == [] && origin == EMPTY && effects == []
      ensures Idle()
    {}

    /** The trial evaluation on the held world. */
    method TryFirstRequest() returns (possible: bool)
      requires Admissible(ev) && ValidPlan(ev.plan, ev.now) && ValidServices(ev.plan, ev.base, true)
      requires ev.held == Held(ev.plan, ev.base) && services == ev.held && sources == ev.heldSources
      ensures possible <==> CanComplete(ev)
    {
      hide ValidServices, Held, Evaluate, EvidenceOk;
      FirstSpotKnown(ev);
      if CanComplete(ev) { SourcesNeeded(ev); }
      var first := FirstSpot(ev.plan);
      if first !in sources { return false; }
      TrialPasses(ev);
      var grant := Evaluate(ev, Snapshot(services, sources), FirstRequest(ev), AfterPackage(ev.plan, first.node),
                            UnitState(services[first], sources[first]));
      return grant.Some?;
    }

    method ArchiveAll() returns (o: Outcome<()>)
      requires Idle() && ValidPlan(ev.plan, ev.now) && ReleaseJournal(ev, journal, 0)
      modifies `journal, `trace
      ensures !o.Refused?
      ensures o.Done? ==> Idle() && ReleaseJournal(ev, journal, |ev.plan.participants|)
      ensures o.Cut? ==> cut.Some? && Silent()
    {
      hide ReleaseJournal, ValidPlan, View;
      for r := 0 to |ev.plan.participants|
        invariant Idle() && ReleaseJournal(ev, journal, r)
      {
        var node := ev.plan.participants[r].node;
        if node in ev.archives {
          ArchiveGoesIn(ev, journal, r);
          o := Admit(Slot(Coordinator, ArchiveKey(node, false)), VArchive(ev.archives[node].0));
          if !o.Done? { return; }
          o := Pass(ArchiveBefore, node);
          if !o.Done? { return; }
          o := Pass(ArchiveApplied, node);
          if !o.Done? { return; }
          o := Admit(Slot(Coordinator, ArchiveKey(node, true)), VArchive(ev.archives[node].1));
          if !o.Done? { return; }
        } else {
          NoArchiveNeeded(ev, journal, r);
        }
      }
      return Done(());
    }

    /** The run from the release on. */
    method RestoreAndComplete() returns (o: Outcome<()>)
      requires At(0, 0, false) && Watched() && Resting(0) && !poisoned
      modifies `journal, `services, `sources, `effects, `trace, `attempted, `nonces, `pending, `poisoned, `stage
      ensures !o.Refused? && Accepted()
      ensures o.Done? ==> services == ev.base && effects == AllSteps(ev)
      ensures o.Done? ==> forall spot | spot in ev.base && !ev.base[spot].masked && spot.unit in BarrierMasks(ev.plan.table) ::
                spot in sources && spot in ev.baseSources && sources[spot] == ev.baseSources[spot]
      ensures o.Done? ==> stage == COMPLETE && Lookup(journal, Slot(Coordinator, CompleteKey)) == Some(VComplete)
      ensures o.Cut? ==> cut.Some? && CutAfterRelease()
    {
      hide AtStage, AllSteps, InSync, View, RecordJustified, KnownOwner, UnknownEffects;
      ghost var n;
      o, n := Restore(0, 0, false);
      if !o.Done? {
        AcceptedByView();
        ghost var m, k, fired := WhereStopped(ev, View(), W(), n);
        assert At(m, k, fired);
        return;
      }
      stage := COMPLETE;
      CompleteIsNew(ev, W(), n);
      SyncMeansFollowing(ev, View(), W());
      SyncMayStop(ev, View(), W(), n, 0, false);
      AdmissionIsJustified(ev.plan, Slot(Coordinator, CompleteKey), VComplete);
      ghost var before := View().value;
      o := Write(Slot(Coordinator, CompleteKey), VComplete);
      UnknownShrinks(before, View().value);
      AcceptedByView();
    }

    lemma {:induction false} SilentIsAccepted()
      requires Silent()
      ensures Accepted()
    {
      assert UnknownEffects(View().value) == {};
      AcceptedByView();
    }

    lemma {:induction false} AcceptedByView()
      requires View().Some? && |UnknownEffects(View().value)| <= 1
      ensures Accepted()
    {
      assert UnknownEffects(View().value) == UnknownEffects(Seen().value);
    }

    // ----- crashes and restarts -----

    /** A new coordinator and transport on the journals as they are.  Its trace is
        read by an inspector that has read those journals. */
    method Reopen(cut: Option<nat>, ghost n: nat, ghost k: nat, ghost fired: bool)
      requires At(n, k, fired) && stage == RESTORING
      modifies `cut, `trace, `pending, `attempted, `poisoned, `origin
      ensures At(n, k, fired) && Watched() && Resting(n) && !poisoned && this.cut == cut
    {
      hide AtStage, InSync, ReplayOn, DoneSteps, Steps;
      EffectCount(ev, W(), n, k, fired);
      ghost var reader := ReaderOf(ev, W(), n, k, fired);
      this.cut, trace, pending, attempted, poisoned, origin := cut, [], None, {}, false, reader;
      NothingRead(ev.plan, origin);
    }

    /** Any number of restorations, each cut anywhere or not at all, one after the
        other on the same journals.  From between two steps one uncut restoration
        brings everything back; from within a step none ever does anything. */
    method Lifetime(cuts: seq<Option<nat>>, ghost n0: nat, ghost k0: nat, ghost fired0: bool)
      returns (completed: bool, ghost n: nat, ghost k: nat, ghost fired: bool)
      requires At(n0, k0, fired0) && stage == RESTORING
      modifies `cut, `journal, `services, `sources, `effects, `trace, `attempted, `nonces, `pending, `poisoned, `origin
      ensures At(n, k, fired) && n0 <= n
      ensures completed ==> services == ev.base && effects == AllSteps(ev)
      ensures completed <== k0 == 0 && |cuts| > 0 && cuts[0] == None
      ensures k0 > 0 ==> !completed && W() == old(W())
      ensures k > 0 && |cuts| > 0 && cuts[|cuts| - 1] == None ==> poisoned
    {
      hide AtStage, AllSteps, InSync, DoneSteps, StoppedIn, View;
      n, k, fired, completed := n0, k0, fired0, false;
      for i := 0 to |cuts|
        invariant At(n, k, fired) && n0 <= n && stage == RESTORING
        invariant i == 0 ==> n == n0 && k == k0 && fired == fired0
        invariant k0 > 0 ==> n == n0 && k == k0 && fired == fired0 && W() == old(W()) && !completed
        invariant completed ==> n == |AllSteps(ev)| && k == 0
        invariant i > 0 && cuts[0] == None && k0 == 0 ==> completed
        invariant i > 0 && k > 0 && cuts[i - 1] == None ==> poisoned
      {
        Reopen(cuts[i], n, k, fired);
        ghost var m;
        var o;
        o, m := Restore(n, k, fired);
        if o.Done? {
          n, k, fired, completed := m, 0, false, true;
        } else if o.Cut? && k == 0 {
          n, k, fired := WhereStopped(ev, View(), W(), m);
        }
        EndIsFinal(ev, W(), n, k, fired);
      }
      EndIsFinal(ev, W(), n, k, fired);
    }
  }
}
