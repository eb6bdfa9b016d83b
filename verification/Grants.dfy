/** The grant provider: which request, if any, may be granted in a given state of
    the journals (layout-migration-exact-grant-provider-model.py), and the release
    validator's own verdict on it (layout-migration-exact-release-validator.py). */
module Grants {
  import opened Common
  import opened RestorePlan
  import opened ServiceWorld
  import opened Records
  import Barrier

  /** What a restoration is given: the captured baseline, the observations after
      the hold, the certified release proof and the archive transcripts. */
  datatype Evidence = Evidence(
    plan: Plan, now: int, closure: string,
    base: Services, baseSources: Sources, held: Services, heldSources: Sources,
    proof: Proof, archives: map<string, (string, string)>, issuedAt: int, expiresAt: int)

  function BaselineOf(ev: Evidence): Baseline {
    Baseline(ev.plan, ev.base)
  }

  function RequestsFor(ev: Evidence, release: Proof, steps: seq<Step>): seq<Request> {
    seq(|steps|, i requires 0 <= i < |steps| => RequestOf(ev.plan, BaselineOf(ev), release, steps[i]))
  }

  function RequestList(ev: Evidence, release: Proof): seq<Request> {
    RequestsFor(ev, release, Steps(ev.plan, ev.base))
  }

  /** The requests so far are those of the steps the loops have passed. */
  ghost predicate EnumeratedTo(ev: Evidence, release: Proof, result: seq<Request>, rest: seq<Step>) {
    var all := Steps(ev.plan, ev.base);
    && |result| <= |all| && all[|result|..] == rest
    && forall i | 0 <= i < |result| :: result[i] == RequestOf(ev.plan, BaselineOf(ev), release, all[i])
  }

  lemma {:induction false} OneMoreRequest(ev: Evidence, release: Proof, result: seq<Request>, step: Step, rest: seq<Step>)
    requires EnumeratedTo(ev, release, result, [step] + rest)
    ensures EnumeratedTo(ev, release, result + [RequestOf(ev.plan, BaselineOf(ev), release, step)], rest)
  {
    var all, k := Steps(ev.plan, ev.base), |result|;
    assert all[k] == all[k..][0] == step;
    assert all[k + 1..] == all[k..][1..];
  }

  lemma {:induction false} NoMoreRequests(ev: Evidence, release: Proof, result: seq<Request>)
    requires EnumeratedTo(ev, release, result, [])
    ensures result == RequestList(ev, release)
  {}

  /** The provider's own four nested loops enumerate the coordinator's steps.
      (Three methods; each carries the invariant of its own loops.) */
  method EnumerateRequests(ev: Evidence, release: Proof) returns (result: seq<Request>)
    ensures result == RequestList(ev, release)
  {
    result := [];
    for p := 0 to PhaseCount(ev.plan.table)
      invariant EnumeratedTo(ev, release, result, StepsFrom(ev.plan, ev.base, p, 0, 0, 0))
    {
      result := EnumeratePhase(ev, release, p, result);
    }
    NoMoreRequests(ev, release, result);
  }

  method EnumeratePhase(ev: Evidence, release: Proof, p: nat, before: seq<Request>) returns (result: seq<Request>)
    requires p < PhaseCount(ev.plan.table)
    requires EnumeratedTo(ev, release, before, StepsFrom(ev.plan, ev.base, p, 0, 0, 0))
    ensures EnumeratedTo(ev, release, result, StepsFrom(ev.plan, ev.base, p + 1, 0, 0, 0))
  {
    result := before;
    for r := 0 to |ev.plan.participants|
      invariant EnumeratedTo(ev, release, result, StepsFrom(ev.plan, ev.base, p, r, 0, 0))
    {
      result := EnumerateRow(ev, release, p, r, result);
    }
    NextPhase(ev.plan, ev.base, p);
  }

  method EnumerateRow(ev: Evidence, release: Proof, p: nat, r: nat, before: seq<Request>) returns (result: seq<Request>)
    requires p < PhaseCount(ev.plan.table) && r < |ev.plan.participants|
    requires EnumeratedTo(ev, release, before, StepsFrom(ev.plan, ev.base, p, r, 0, 0))
    ensures EnumeratedTo(ev, release, result, StepsFrom(ev.plan, ev.base, p, r + 1, 0, 0))
  {
    result := before;
    var phase, node := PhaseUnits(ev.plan.table, p), ev.plan.participants[r].node;
    for u := 0 to |phase|
      invariant EnumeratedTo(ev, release, result, StepsFrom(ev.plan, ev.base, p, r, u, 0))
    {
      for o := 0 to 2
        invariant EnumeratedTo(ev, release, result, StepsFrom(ev.plan, ev.base, p, r, u, o))
      {
        NextStep(ev.plan, ev.base, Place(p, r, u, o));
        var step := Step(Spot(node, phase[u]), OpAt(o));
        if Wanted(ev.plan, ev.base, step) {
          OneMoreRequest(ev, release, result, step, StepsFrom(ev.plan, ev.base, p, r, u, o + 1));
          result := result + [RequestOf(ev.plan, BaselineOf(ev), release, step)];
        }
      }
      NextUnit(ev.plan, ev.base, p, r, u);
    }
    NextRow(ev.plan, ev.base, p, r);
  }

  function BarrierSlot(index: nat, kind: Barrier.Kind): Slot {
    Slot(Coordinator, BarrierKey(index, kind))
  }

  predicate BarrierRowOnRecord(plan: Plan, j: Journal, i: nat, k: nat)
    requires i < |Barrier.Actions(plan)|
  {
    var row := Lookup(j, BarrierSlot(i, Barrier.KindAt(k)));
    row.Some? && row.value.VBarrier? && Barrier.RowOk(plan, Barrier.Actions(plan)[i], Barrier.KindAt(k), i, row.value.event)
  }

  predicate BarrierTraceComplete(plan: Plan, j: Journal) {
    forall i, k | 0 <= i < |Barrier.Actions(plan)| && 0 <= k < 3 :: BarrierRowOnRecord(plan, j, i, k)
  }

  predicate ArchivesOnRecord(ev: Evidence, j: Journal) {
    forall node | node in ev.archives ::
      && Lookup(j, Slot(Coordinator, ArchiveKey(node, false))) == Some(VArchive(ev.archives[node].0))
      && Lookup(j, Slot(Coordinator, ArchiveKey(node, true))) == Some(VArchive(ev.archives[node].1))
  }

  /** The durable admissions every grant presupposes. */
  predicate Admitted(ev: Evidence, j: Journal, request: Request) {
    && Lookup(j, Slot(Coordinator, Started)) == Some(VStarted(ev.plan, ev.closure))
    && Slot(Coordinator, CompleteKey) !in j
    && BarrierTraceComplete(ev.plan, j)
    && Lookup(j, Slot(Coordinator, HeldKey)) == Some(VHeld)
    && ArchivesOnRecord(ev, j)
    && Lookup(j, Slot(Coordinator, BaselineKey)) == Some(VBaseline(BaselineOf(ev)))
    && request.baseline == BaselineOf(ev)
    && Lookup(j, Slot(Coordinator, ReleaseKey)) == Some(VRelease(request.release))
    && request.release.plan == ev.plan
  }

  function GrantAt(j: Journal, step: Step): Option<Issuance> {
    match Lookup(j, Local(step, GRANT)) case Some(VIssuance(g)) => Some(g) case _ => None
  }

  function IntentAt(j: Journal, step: Step): Option<LocalIntent> {
    match Lookup(j, Local(step, INTENT)) case Some(VLocalIntent(i)) => Some(i) case _ => None
  }

  function ReceiptAt(j: Journal, step: Step): Option<Receipt> {
    match Lookup(j, Local(step, DONE)) case Some(VReceipt(r)) => Some(r) case _ => None
  }

  function RowAt(j: Journal, request: Request): PrefixRow {
    PrefixRow(request, GrantAt(j, StepOf(request)), IntentAt(j, StepOf(request)), ReceiptAt(j, StepOf(request)))
  }

  function Rows(j: Journal, requests: seq<Request>, n: nat): seq<PrefixRow>
    requires n <= |requests|
  {
    seq(n, i requires 0 <= i < n => RowAt(j, requests[i]))
  }

  /** _record: an issuance that is consistent in itself. */
  predicate RecordOk(g: Issuance) {
    var b := g.binding;
    && 0 < g.grant.expiresAt - g.grant.issuedAt <= 30
    && g.grant == Grant(b.request, b.executor, b.before, g.grant.after, g.grant.issuedAt, g.grant.expiresAt, b.request.op, b)
    && b.server == ServerGrant(b.request, b.executor, b.before, g.grant.after, g.grant.issuedAt, g.grant.expiresAt,
                               b.request.op, b.server.evidence)
    && b.phaseIndex >= 0
  }

  predicate Untouched(j: Journal, step: Step) {
    && Central(step, INTENT) !in j && Central(step, DONE) !in j && ReceiptSlot(step) !in j
    && Local(step, GRANT) !in j && Local(step, INTENT) !in j && Local(step, DONE) !in j
  }

  predicate StepComplete(ev: Evidence, j: Journal, requests: seq<Request>, i: nat, lastTime: int)
    requires i < |requests|
  {
    var expected := requests[i];
    var step := StepOf(expected);
    var g, intent, receipt := GrantAt(j, step), IntentAt(j, step), ReceiptAt(j, step);
    && Lookup(j, Central(step, INTENT)) == Some(VRequest(expected))
    && g.Some? && intent.Some? && receipt.Some?
    && RecordOk(g.value)
    && g.value.binding.request == expected && g.value.binding.phaseIndex == i
    && g.value.binding.prefix == Rows(j, requests, i) && g.value.binding.closure == ev.closure
    && intent.value == LocalIntent(expected, g.value.binding.executor, g.value.binding.before, g.value.grant, intent.value.process)
    && Lookup(j, ReceiptSlot(step)) == Some(VReceipt(receipt.value))
    && receipt.value.request == expected && receipt.value.intent == intent.value && receipt.value.exitCode == 0
    && Lookup(j, Central(step, DONE)) == Some(VConfirmed(expected))
    && g.value.grant.issuedAt <= receipt.value.startedAt <= g.value.grant.expiresAt
    && receipt.value.startedAt <= receipt.value.finishedAt <= lastTime
    && Postcondition(expected.op, receipt.value.after.service)
    && receipt.value.after.source == g.value.grant.after
  }

  predicate StepPending(j: Journal, expected: Request) {
    var step := StepOf(expected);
    && Lookup(j, Central(step, INTENT)) == Some(VRequest(expected))
    && Central(step, DONE) !in j && ReceiptSlot(step) !in j && Local(step, DONE) !in j
    && (Local(step, INTENT) in j ==>
          && GrantAt(j, step).Some? && IntentAt(j, step).Some? && RecordOk(GrantAt(j, step).value)
          && IntentAt(j, step).value.request == expected
          && IntentAt(j, step).value.grant == GrantAt(j, step).value.grant)
  }

  /** A baseline-forbidden operation must have left no trace at all. */
  predicate ForbiddenUntouched(ev: Evidence, j: Journal, requests: seq<Request>) {
    forall r, unit | 0 <= r < |ev.plan.participants| && unit in BarrierMasks(ev.plan.table) ::
      forall o | 0 <= o < 2 ::
        var step := Step(Spot(ev.plan.participants[r].node, unit), OpAt(o));
        (forall i {:trigger requests[i]} | 0 <= i < |requests| :: StepOf(requests[i]) != step) ==> Untouched(j, step)
  }

  datatype PhaseView = PhaseView(index: nat, prefix: seq<PrefixRow>, current: Option<Value>)

  predicate AtPosition(ev: Evidence, j: Journal, requests: seq<Request>, position: nat, lastTime: int)
    requires position < |requests|
  {
    && ForbiddenUntouched(ev, j, requests)
    && (forall i | 0 <= i < position :: StepComplete(ev, j, requests, i, lastTime))
    && StepPending(j, requests[position])
    && (forall i | position < i < |requests| :: Untouched(j, StepOf(requests[i])))
  }

  function IndexOf(requests: seq<Request>, request: Request): (i: nat)
    ensures i <= |requests|
    ensures i < |requests| ==> requests[i] == request
    ensures forall k | 0 <= k < i :: requests[k] != request
  {
    if requests == [] then 0 else if requests[0] == request then 0 else 1 + IndexOf(requests[1..], request)
  }

  /** _phase: where the request stands, if it is the one whose turn it is. */
  function Phase(ev: Evidence, j: Journal, lastTime: int, request: Request): Option<PhaseView> {
    var requests := RequestList(ev, request.release);
    var position := IndexOf(requests, request);
    if Admitted(ev, j, request) && position < |requests| && AtPosition(ev, j, requests, position, lastTime)
    then Some(PhaseView(position, Rows(j, requests, position), Lookup(j, Local(StepOf(request), GRANT))))
    else None
  }

  /** _phase as it runs: read everything, refuse at the first thing out of place. */
  method CheckPhase(ev: Evidence, j: Journal, lastTime: int, request: Request) returns (view: Option<PhaseView>)
    ensures view == Phase(ev, j, lastTime, request)
  {
    hide Admitted, ForbiddenUntouched, StepComplete, StepPending, Untouched, RequestList, IndexOf;
    if !Admitted(ev, j, request) { return None; }
    var requests := EnumerateRequests(ev, request.release);
    var position := IndexOf(requests, request);
    if position == |requests| { return None; }
    if !ForbiddenUntouched(ev, j, requests) { return None; }
    var prefix: seq<PrefixRow> := [];
    for index := 0 to |requests|
      invariant CheckedTo(ev, j, requests, position, lastTime, index)
      invariant prefix == Rows(j, requests, if index < position then index else position)
    {
      var expected := requests[index];
      if index > position {
        if !Untouched(j, StepOf(expected)) { return None; }
      } else if index == position {
        if !StepPending(j, expected) { return None; }
      } else {
        if !StepComplete(ev, j, requests, index, lastTime) { return None; }
        prefix := prefix + [RowAt(j, expected)];
      }
    }
    view := Some(PhaseView(position, prefix, Lookup(j, Local(StepOf(request), GRANT))));
  }

  ghost predicate CheckedTo(ev: Evidence, j: Journal, requests: seq<Request>, position: nat, lastTime: int, index: nat)
    requires position < |requests| && index <= |requests|
  {
    && (forall i | 0 <= i < index && i < position :: StepComplete(ev, j, requests, i, lastTime))
    && (index > position ==> StepPending(j, requests[position]))
    && (forall i | position < i < index :: Untouched(j, StepOf(requests[i])))
  }

  lemma {:induction false} LaterPositionRulesOutEarlier(ev: Evidence, j: Journal, requests: seq<Request>, q: nat, t: int, p: nat)
    requires p < q < |requests| && AtPosition(ev, j, requests, q, t)
    ensures !StepPending(j, requests[p])
  {
    assert StepComplete(ev, j, requests, p, t);
  }

  /** In any state of the journals whatever, at most one request can be granted. */
  lemma {:induction false} OnlyOneRequestGrantable(ev: Evidence, j: Journal, s: int, t: int, a: Request, b: Request)
    requires Phase(ev, j, s, a).Some? && Phase(ev, j, t, b).Some?
    ensures a == b
  {
    var requests := RequestList(ev, a.release);
    var p, q := IndexOf(requests, a), IndexOf(requests, b);
    if p < q {
      LaterPositionRulesOutEarlier(ev, j, requests, q, t, p);
    } else if q < p {
      LaterPositionRulesOutEarlier(ev, j, requests, p, s, q);
    }
  }

  /** What durable state a grant presupposes: the run begun under this plan and closure
      and not completed, the hold, this baseline and this release on record. */
  lemma {:induction false} GrantableRun(ev: Evidence, j: Journal, lastTime: int, request: Request)
    requires Phase(ev, j, lastTime, request).Some?
    ensures Lookup(j, Slot(Coordinator, Started)) == Some(VStarted(ev.plan, ev.closure))
    ensures Slot(Coordinator, CompleteKey) !in j
    ensures Lookup(j, Slot(Coordinator, HeldKey)) == Some(VHeld)
    ensures Lookup(j, Slot(Coordinator, BaselineKey)) == Some(VBaseline(Baseline(ev.plan, ev.base)))
    ensures Lookup(j, Slot(Coordinator, ReleaseKey)) == Some(VRelease(request.release))
    ensures request.release.plan == ev.plan && request.baseline == Baseline(ev.plan, ev.base)
    ensures forall node | node in ev.archives ::
              && Lookup(j, Slot(Coordinator, ArchiveKey(node, false))) == Some(VArchive(ev.archives[node].0))
              && Lookup(j, Slot(Coordinator, ArchiveKey(node, true))) == Some(VArchive(ev.archives[node].1))
    ensures forall i, k | 0 <= i < |Barrier.Actions(ev.plan)| && 0 <= k < 3 :: BarrierRowOnRecord(ev.plan, j, i, k)
  {
    hide AtPosition, RequestList, BarrierRowOnRecord;
  }

  /** Where the granted request stands: every step before it is complete on record, in
      both journals and with one and the same receipt, confirmed inside its grant, which
      was issued for that place and that past; it is itself begun and not completed;
      nothing is on record of any step after it. */
  lemma {:induction false} GrantablePlace(ev: Evidence, j: Journal, lastTime: int, request: Request, i: nat)
    requires Phase(ev, j, lastTime, request).Some? && i < |RequestList(ev, request.release)|
    ensures var at, requests := Phase(ev, j, lastTime, request).value.index, RequestList(ev, request.release);
            at < |requests| && requests[at] == request
    ensures var at, q := Phase(ev, j, lastTime, request).value.index, RequestList(ev, request.release)[i];
            var step, local := StepOf(q), Node(q.node);
            var intent, done := Lookup(j, Slot(local, EffectKey(step, INTENT))), Lookup(j, Slot(local, EffectKey(step, DONE)));
            && (i <= at ==> Lookup(j, Slot(Coordinator, EffectKey(step, INTENT))) == Some(VRequest(q)))
            && (i >= at ==> && Slot(Coordinator, EffectKey(step, DONE)) !in j && Slot(Coordinator, ReceiptKey(step)) !in j
                            && done == None)
            && (i > at ==> && Slot(Coordinator, EffectKey(step, INTENT)) !in j && intent == None
                           && Slot(local, EffectKey(step, GRANT)) !in j)
            && (i < at ==>
                  && Lookup(j, Slot(Coordinator, EffectKey(step, DONE))) == Some(VConfirmed(q))
                  && done.Some? && done.value.VReceipt? && intent.Some? && intent.value.VLocalIntent?
                  && Lookup(j, Slot(Coordinator, ReceiptKey(step))) == done
                  && var receipt, was := done.value.receipt, intent.value.intent;
                     && receipt.request == q == was.request && receipt.intent == was && receipt.exitCode == 0
                     && was.grant.issuedAt <= receipt.startedAt <= was.grant.expiresAt
                     && receipt.startedAt <= receipt.finishedAt <= lastTime
                     && !receipt.after.service.masked && (q.op == START ==> receipt.after.service.active)
                     && receipt.after.source == was.grant.after
                     && was.grant.request == q && was.grant.op == q.op && was.grant.executor == was.executor
                     && was.grant.before == was.before && 0 < was.grant.expiresAt - was.grant.issuedAt <= 30
                     && was.grant.authorization.phaseIndex == i && was.grant.authorization.closure == ev.closure
                     && |was.grant.authorization.prefix| == i)
  {
    hide Admitted, RequestList, ForbiddenUntouched;
    var requests := RequestList(ev, request.release);
    var at := IndexOf(requests, request);
    if i < at { assert StepComplete(ev, j, requests, i, lastTime); }
    if i > at { assert Untouched(j, StepOf(requests[i])); }
  }

  /** An operation the restoration does not consist of has left nothing in any journal. */
  lemma {:induction false} ForbiddenLeftNothing(ev: Evidence, j: Journal, lastTime: int, request: Request, step: Step, r: nat)
    requires Phase(ev, j, lastTime, request).Some?
    requires r < |ev.plan.participants| && step.spot.node == ev.plan.participants[r].node
    requires step.spot.unit in BarrierMasks(ev.plan.table) && step !in Steps(ev.plan, ev.base) && ValidPlan(ev.plan, ev.now)
    ensures Slot(Coordinator, EffectKey(step, INTENT)) !in j && Slot(Coordinator, EffectKey(step, DONE)) !in j
    ensures Slot(Coordinator, ReceiptKey(step)) !in j
    ensures Slot(Node(step.spot.node), EffectKey(step, GRANT)) !in j
    ensures Slot(Node(step.spot.node), EffectKey(step, INTENT)) !in j
    ensures Slot(Node(step.spot.node), EffectKey(step, DONE)) !in j
  {
    hide Admitted, RequestList, StepComplete, StepPending, Steps, ValidPlan, BarrierMasks;
    var requests := RequestList(ev, request.release);
    RequestStepsDistinct(ev, request.release);
    RequestCount(ev, request.release);
    assert OpAt(if step.op == UNMASK then 0 else 1) == step.op;
    assert Step(Spot(ev.plan.participants[r].node, step.spot.unit), OpAt(if step.op == UNMASK then 0 else 1)) == step;
    assert forall i | 0 <= i < |requests| :: StepOf(requests[i]) != step;
    assert Untouched(j, step);
  }

  lemma {:induction false} RequestCount(ev: Evidence, release: Proof)
    ensures |RequestList(ev, release)| == |Steps(ev.plan, ev.base)|
  {}

  /** The past a grant is bound to: of every earlier step its request, its grant, its
      intent and its receipt, as they are on record. */
  lemma {:induction false} GrantedPast(ev: Evidence, j: Journal, lastTime: int, request: Request, i: nat)
    requires Phase(ev, j, lastTime, request).Some? && i < Phase(ev, j, lastTime, request).value.index
    ensures var view, q := Phase(ev, j, lastTime, request).value, RequestList(ev, request.release);
            && |view.prefix| == view.index < |q|
            && view.prefix[i].request == q[i]
            && view.prefix[i].grant.Some? && view.prefix[i].intent.Some? && view.prefix[i].receipt.Some?
            && Lookup(j, Local(StepOf(q[i]), GRANT)) == Some(VIssuance(view.prefix[i].grant.value))
            && Lookup(j, Local(StepOf(q[i]), INTENT)) == Some(VLocalIntent(view.prefix[i].intent.value))
            && Lookup(j, Local(StepOf(q[i]), DONE)) == Some(VReceipt(view.prefix[i].receipt.value))
  {
    hide Admitted, RequestList, ForbiddenUntouched;
    assert StepComplete(ev, j, RequestList(ev, request.release), i, lastTime);
  }

  // ----- the release validator -----

  function AfterPackage(plan: Plan, node: string): string {
    PackageFrom(plan.participants, node)
  }

  function PackageFrom(rows: seq<Participant>, node: string): string {
    if rows == [] then "" else if rows[0].node == node then rows[0].afterPackage else PackageFrom(rows[1..], node)
  }

  function Evaluate(ev: Evidence, evidence: Snapshot, request: Request, executor: string, before: UnitState)
    : Option<ServerGrant>
  {
    var spot := Spot(request.node, request.unit);
    if && ValidPlan(ev.plan, ev.now)
       && ev.plan.issuedAt <= ev.issuedAt <= ev.now <= ev.expiresAt <= ev.plan.expiresAt
       && 0 < ev.expiresAt - ev.issuedAt <= 30
       && ValidServices(ev.plan, ev.base, true) && ValidServices(ev.plan, evidence.services, false)
       && ValidSources(ev.plan, ev.base, ev.baseSources)
       && ValidSources(ev.plan, evidence.services, evidence.sources)
       && SourcesPreserved(ev.base, ev.baseSources, evidence.sources)
       && ReleaseGate(ev.plan, ev.base, evidence.services)
       && request == RequestOf(ev.plan, BaselineOf(ev), ev.proof, StepOf(request))
       && spot in ev.base && request.unit in BarrierMasks(ev.plan.table)
       && EarlierPhasesRestored(ev.plan, ev.base, evidence.services, request.unit)
       && before == UnitState(evidence.services[spot], evidence.sources[spot])
       && !ev.base[spot].masked
       && (request.op == START ==> ev.base[spot].active && request.unit in Targets(ev.plan.table))
       && Predecessor(ev.plan.table, ev.base[spot], before.service, request.unit, request.op)
       && executor == AfterPackage(ev.plan, request.node)
    then Some(ServerGrant(request, executor, before, EffectSource(request.op, before.source, ev.baseSources[spot]),
                          ev.issuedAt, ev.expiresAt, request.op, evidence))
    else None
  }

  function IssuanceFor(ev: Evidence, view: PhaseView, server: ServerGrant): Issuance {
    var b := Binding(server.request, server.executor, server.before, server.evidence, ev.closure,
                     view.index, view.prefix, server);
    Issuance(b, Grant(server.request, server.executor, server.before, server.after,
                      server.issuedAt, server.expiresAt, server.op, b))
  }

  /** What authorize would issue, or confirm as issued, on a server grant. */
  function AuthorizationOn(ev: Evidence, server: ServerGrant, j: Journal, lastTime: int): Option<Issuance> {
    match Phase(ev, j, lastTime, server.request)
    case None => None
    case Some(view) =>
      var g := IssuanceFor(ev, view, server);
      if view.current == None || view.current == Some(VIssuance(g)) then Some(g) else None
  }

  function Authorization(ev: Evidence, evidence: Snapshot, j: Journal, lastTime: int,
                         request: Request, executor: string, before: UnitState): Option<Issuance> {
    match Evaluate(ev, evidence, request, executor, before)
    case None => None
    case Some(server) => AuthorizationOn(ev, server, j, lastTime)
  }

  lemma {:induction false} EvaluatedGrant(ev: Evidence, evidence: Snapshot, request: Request, executor: string, before: UnitState)
    requires Evaluate(ev, evidence, request, executor, before).Some?
    ensures ValidPlan(ev.plan, ev.now)
    ensures var server := Evaluate(ev, evidence, request, executor, before).value;
            && server.request == request && server.executor == executor && server.before == before
            && server.op == request.op && server.evidence == evidence
            && server.issuedAt == ev.issuedAt && server.expiresAt == ev.expiresAt && 0 < ev.expiresAt - ev.issuedAt <= 30
            && Spot(request.node, request.unit) in ev.baseSources
            && server.after == EffectSource(request.op, before.source, ev.baseSources[Spot(request.node, request.unit)])
  {}

  lemma {:induction false} PackageIs(rows: seq<Participant>, r: nat)
    requires r < |rows| && forall i, k | 0 <= i < k < |rows| :: rows[i].node != rows[k].node
    ensures PackageFrom(rows, rows[r].node) == rows[r].afterPackage
  {
    if r > 0 { PackageIs(rows[1..], r - 1); }
  }

  /** Whom and what the validator grants: the executor with the node's new package, on
      the boot of the plan, this plan's own baseline and release, inside the plan's
      window and for half a minute at most. */
  lemma {:induction false} GrantedRequest(ev: Evidence, evidence: Snapshot, request: Request, executor: string, before: UnitState, r: nat)
    requires Evaluate(ev, evidence, request, executor, before).Some?
    requires r < |ev.plan.participants| && ev.plan.participants[r].node == request.node
    ensures executor == ev.plan.participants[r].afterPackage && request.bootId == ev.plan.participants[r].bootId
    ensures request.tx == ev.plan.tx && request.plan == ev.plan
    ensures request.baseline == Baseline(ev.plan, ev.base) && request.release == ev.proof
    ensures ev.plan.issuedAt <= ev.issuedAt <= ev.now <= ev.expiresAt <= ev.plan.expiresAt && ev.expiresAt - ev.issuedAt <= 30
    ensures var server := Evaluate(ev, evidence, request, executor, before).value;
            && server.issuedAt == ev.issuedAt && server.expiresAt == ev.expiresAt && server.executor == executor
            && server.after.vendor == before.source.vendor
            && (request.op == START ==> server.after == before.source)
            && (request.op == UNMASK ==> server.after.local == None)
  {
    hide ValidServices, ValidSources, SourcesPreserved, ReleaseGate, EarlierPhasesRestored, Predecessor, Targets;
    PackageIs(ev.plan.participants, r);
    BootIs(ev.plan.participants, r);
  }

  /** On what unit, in what cohort: the unit as observed, masked for an UNMASK and
      unmasked and dead for a START, one the baseline wants the operation on; every
      unit of an earlier phase back to the baseline on every node; no preserved
      service drifted, no original mask gone; vendor sources and original mask links as
      they were. */
  lemma {:induction false} GrantedUnit(ev: Evidence, evidence: Snapshot, request: Request, executor: string, before: UnitState)
    requires Evaluate(ev, evidence, request, executor, before).Some?
    ensures var spot, t := Spot(request.node, request.unit), ev.plan.table;
            && spot in ev.base && spot in evidence.services && spot in evidence.sources && evidence.services.Keys == ev.base.Keys
            && before == UnitState(evidence.services[spot], evidence.sources[spot])
            && (request.unit in Targets(t) || request.unit == t.guests)
            && !ev.base[spot].masked && (request.op == START ==> ev.base[spot].active && request.unit in Targets(t))
            && (request.op == UNMASK ==> before.service.masked)
            && (request.op == START ==> !before.service.masked && !before.service.active)
            && (if request.unit == t.guests then before.service.active == ev.base[spot].active else !before.service.active)
    ensures forall p, q, other | 0 <= q < p < |ev.plan.table.phases| && request.unit in ev.plan.table.phases[p]
                                 && other in ev.base && other.unit in ev.plan.table.phases[q] ::
              evidence.services[other] == ev.base[other]
    ensures request.unit == ev.plan.table.guests ==> forall other | other in ev.base && other.unit in Targets(ev.plan.table) ::
              evidence.services[other] == ev.base[other]
    ensures forall other | other in ev.base ::
              && other in ev.baseSources && other in evidence.sources
              && ev.baseSources[other].vendor == evidence.sources[other].vendor
              && (other.unit !in ev.plan.table.preserved && ev.base[other].masked ==> evidence.services[other].masked)
              && (other.unit in ev.plan.table.preserved ==> evidence.services[other].active == ev.base[other].active)
              && (ev.base[other].masked ==> ev.baseSources[other].local == evidence.sources[other].local)
  {
    hide ValidPlan, ValidServices, RequestOf, Targets, EarlierPhasesRestored, ReleaseGate;
    GateShows(ev.plan, ev.base, evidence.services);
    GrantedPhases(ev, evidence.services, request.unit);
  }

  lemma {:induction false} GrantedPhases(ev: Evidence, services: Services, unit: string)
    requires ValidPlan(ev.plan, ev.now) && EarlierPhasesRestored(ev.plan, ev.base, services, unit)
    ensures ev.base.Keys == services.Keys
    ensures forall p, q, other | 0 <= q < p < |ev.plan.table.phases| && unit in ev.plan.table.phases[p]
                                 && other in ev.base && other.unit in ev.plan.table.phases[q] ::
              services[other] == ev.base[other]
    ensures unit == ev.plan.table.guests ==> forall other | other in ev.base && other.unit in Targets(ev.plan.table) ::
              services[other] == ev.base[other]
  {
    hide ValidTable, Targets, EarlierPhasesRestored;
    forall p, q, other | 0 <= q < p < |ev.plan.table.phases| && unit in ev.plan.table.phases[p]
                         && other in ev.base && other.unit in ev.plan.table.phases[q]
      ensures ev.base.Keys == services.Keys && services[other] == ev.base[other]
    {
      var k :| 0 <= k < |ev.plan.table.phases[p]| && ev.plan.table.phases[p][k] == unit;
      PhaseGateShows(ev.plan, ev.base, services, p, k);
    }
    PlanSays(ev.plan, ev.now);
    PhaseGateShows(ev.plan, ev.base, services, 0, 0);
    SameKeys(ev, services, unit);
  }

  lemma {:induction false} SameKeys(ev: Evidence, services: Services, unit: string)
    requires EarlierPhasesRestored(ev.plan, ev.base, services, unit)
    ensures ev.base.Keys == services.Keys
  {}

  /** Records of one step do not touch the completion of another. */
  lemma {:induction false} OtherStepKeepsComplete(ev: Evidence, j: Journal, requests: seq<Request>, i: nat, lastTime: int, step: Step, v: Value)
    requires i < |requests| && StepComplete(ev, j, requests, i, lastTime)
    requires forall k | 0 <= k <= i :: StepOf(requests[k]) != step
    ensures StepComplete(ev, j[Local(step, GRANT) := v], requests, i, lastTime)
  {
    assert Rows(j[Local(step, GRANT) := v], requests, i) == Rows(j, requests, i);
  }

  lemma {:induction false} PublishedGrantKeepsPosition(ev: Evidence, j: Journal, requests: seq<Request>, position: nat, lastTime: int, g: Issuance)
    requires position < |requests| && AtPosition(ev, j, requests, position, lastTime)
    requires forall i, k | 0 <= i < k < |requests| :: StepOf(requests[i]) != StepOf(requests[k])
    requires Lookup(j, Local(StepOf(requests[position]), GRANT)) in {None, Some(VIssuance(g))} && RecordOk(g)
    ensures var j' := j[Local(StepOf(requests[position]), GRANT) := VIssuance(g)];
            && AtPosition(ev, j', requests, position, lastTime)
            && Rows(j', requests, position) == Rows(j, requests, position)
  {
    var step := StepOf(requests[position]);
    var j' := j[Local(step, GRANT) := VIssuance(g)];
    forall i | 0 <= i < position ensures StepComplete(ev, j', requests, i, lastTime) {
      OtherStepKeepsComplete(ev, j, requests, i, lastTime, step, VIssuance(g));
    }
    forall i | position < i < |requests| ensures Untouched(j', StepOf(requests[i])) {
      assert Untouched(j, StepOf(requests[i]));
    }
    assert Rows(j', requests, position) == Rows(j, requests, position);
  }

  function Publish(j: Journal, g: Issuance): Journal {
    j[Local(StepOf(g.binding.request), GRANT) := VIssuance(g)]
  }

  /** Publishing a grant changes neither the position nor the prefix. */
  lemma {:induction false} PublishedPhase(ev: Evidence, j: Journal, lastTime: int, request: Request, g: Issuance)
    requires ValidPlan(ev.plan, ev.now)
    requires Phase(ev, j, lastTime, request).Some? && RecordOk(g) && g.binding.request == request
    requires Phase(ev, j, lastTime, request).value.current in {None, Some(VIssuance(g))}
    ensures Phase(ev, Publish(j, g), lastTime, request)
            == Some(Phase(ev, j, lastTime, request).value.(current := Some(VIssuance(g))))
  {
    var requests := RequestList(ev, request.release);
    RequestStepsDistinct(ev, request.release);
    PublishedGrantKeepsPosition(ev, j, requests, IndexOf(requests, request), lastTime, g);
    StepRecordsKeepAdmission(ev, j, Publish(j, g), request);
  }

  /** Asking again returns the very same grant. */
  lemma {:induction false} RepeatedAuthorizationIsIdentical(ev: Evidence, evidence: Snapshot, j: Journal, lastTime: int,
                                         request: Request, executor: string, before: UnitState, g: Issuance)
    requires Authorization(ev, evidence, j, lastTime, request, executor, before) == Some(g)
    ensures RecordOk(g) && g.binding.request == request
    ensures Authorization(ev, evidence, Publish(j, g), lastTime, request, executor, before) == Some(g)
  {
    EvaluatedGrant(ev, evidence, request, executor, before);
    RepeatedOn(ev, Evaluate(ev, evidence, request, executor, before).value, j, lastTime, g);
  }

  /** What is issued, field by field. */
  lemma {:induction false} IssuedGrant(ev: Evidence, evidence: Snapshot, j: Journal, lastTime: int,
                                       request: Request, executor: string, before: UnitState, g: Issuance)
    requires Authorization(ev, evidence, j, lastTime, request, executor, before) == Some(g)
    ensures var at := Phase(ev, j, lastTime, request);
            && at.Some? && g.binding.phaseIndex == at.value.index && g.binding.prefix == at.value.prefix
            && g.binding.request == request == g.grant.request && g.binding.executor == executor == g.grant.executor
            && g.binding.before == before == g.grant.before && g.binding.evidence == evidence && g.binding.closure == ev.closure
            && g.grant.op == request.op && g.grant.issuedAt == ev.issuedAt && g.grant.expiresAt == ev.expiresAt
            && g.grant.authorization == g.binding
            && Evaluate(ev, evidence, request, executor, before) == Some(g.binding.server)
            && g.grant.after == g.binding.server.after
  {
    hide Evaluate, Phase;
    EvaluatedGrant(ev, evidence, request, executor, before);
  }

  lemma {:induction false} RepeatedOn(ev: Evidence, server: ServerGrant, j: Journal, lastTime: int, g: Issuance)
    requires ValidPlan(ev.plan, ev.now)
    requires server.op == server.request.op && 0 < server.expiresAt - server.issuedAt <= 30
    requires AuthorizationOn(ev, server, j, lastTime) == Some(g)
    ensures RecordOk(g) && g.binding.request == server.request
    ensures AuthorizationOn(ev, server, Publish(j, g), lastTime) == Some(g)
  {
    PublishedPhase(ev, j, lastTime, server.request, g);
  }

  /** The records of steps are not part of the admission. */
  lemma {:induction false} StepRecordsKeepAdmission(ev: Evidence, j: Journal, j': Journal, request: Request)
    requires SameAdmissions(j, j')
    ensures Admitted(ev, j, request) <==> Admitted(ev, j', request)
  {
    forall i, k | 0 <= i < |Barrier.Actions(ev.plan)| && 0 <= k < 3
      ensures BarrierRowOnRecord(ev.plan, j, i, k) <==> BarrierRowOnRecord(ev.plan, j', i, k)
    {
      assert Lookup(j, BarrierSlot(i, Barrier.KindAt(k))) == Lookup(j', BarrierSlot(i, Barrier.KindAt(k)));
    }
    forall node, part
      ensures Lookup(j, Slot(Coordinator, ArchiveKey(node, part))) == Lookup(j', Slot(Coordinator, ArchiveKey(node, part))) {}
    assert Lookup(j, Slot(Coordinator, CompleteKey)) == Lookup(j', Slot(Coordinator, CompleteKey));
  }

  lemma {:induction false} RequestStepsDistinct(ev: Evidence, release: Proof)
    requires ValidPlan(ev.plan, ev.now)
    ensures forall i | 0 <= i < |RequestList(ev, release)| ::
              StepOf(RequestList(ev, release)[i]) == Steps(ev.plan, ev.base)[i]
    ensures forall i, k | 0 <= i < k < |RequestList(ev, release)| ::
              StepOf(RequestList(ev, release)[i]) != StepOf(RequestList(ev, release)[k])
  {
    forall i, k | 0 <= i < k < |Steps(ev.plan, ev.base)|
      ensures Steps(ev.plan, ev.base)[i] != Steps(ev.plan, ev.base)[k]
    {
      StepsDistinct(ev.plan, ev.base, ev.now, i, k);
    }
  }
}
