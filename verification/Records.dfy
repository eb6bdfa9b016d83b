/** The durable records of one restoration and the keys they are kept under.

    A digest of a value is represented by the value itself: two digests are equal
    exactly when the digested values are.  That is the one assumption made about
    the hash.  */
module Records {
  import opened Common
  import opened RestorePlan
  import opened ServiceWorld
  import Barrier

  datatype Owner = Coordinator | Node(name: string)
  datatype Part = GRANT | INTENT | DONE

  datatype Key =
    | Started | BaselineKey | HeldKey | ReleaseKey | CompleteKey
    | BarrierKey(index: nat, kind: Barrier.Kind)
    | ArchiveKey(node: string, finished: bool)
    | EffectKey(step: Step, part: Part)
    | ReceiptKey(step: Step)
    | TransportKey(step: Step, finished: bool)

  datatype Slot = Slot(owner: Owner, key: Key)

  datatype Baseline = Baseline(plan: Plan, records: Services)
  datatype Proof = Proof(plan: Plan, certified: string, archives: string)

  datatype Request = Request(
    tx: string, plan: Plan, node: string, bootId: string, unit: string, op: Operation,
    baseline: Baseline, release: Proof)

  /** The cohort evidence a grant is computed from. */
  datatype Snapshot = Snapshot(services: Services, sources: Sources)

  /** The release validator's grant; its authorization digest binds all of this. */
  datatype ServerGrant = ServerGrant(
    request: Request, executor: string, before: UnitState, after: Source,
    issuedAt: int, expiresAt: int, op: Operation, evidence: Snapshot)

  datatype PrefixRow = PrefixRow(
    request: Request, grant: Option<Issuance>, intent: Option<LocalIntent>, receipt: Option<Receipt>)

  datatype Binding = Binding(
    request: Request, executor: string, before: UnitState, evidence: Snapshot, closure: string,
    phaseIndex: int, prefix: seq<PrefixRow>, server: ServerGrant)

  /** The provider's grant: the server's, except that its authorization digests
      the binding to a position in the restoration. */
  datatype Grant = Grant(
    request: Request, executor: string, before: UnitState, after: Source,
    issuedAt: int, expiresAt: int, op: Operation, authorization: Binding)

  datatype Issuance = Issuance(binding: Binding, grant: Grant)

  datatype LocalIntent = LocalIntent(request: Request, executor: string, before: UnitState, grant: Grant, process: int)

  datatype Receipt = Receipt(
    request: Request, intent: LocalIntent, after: UnitState, exitCode: int, startedAt: int, finishedAt: int)

  datatype Value =
    | VStarted(plan: Plan, closure: string)
    | VBaseline(baseline: Baseline)
    | VHeld | VComplete
    | VRelease(proof: Proof)
    | VBarrier(event: Barrier.Event)
    | VArchive(content: string)
    | VRequest(request: Request)
    | VConfirmed(request: Request)
    | VAttempt(effect: Request, challenge: nat)
    | VTransported(attempted: Value, received: Value)
    | VIssuance(issuance: Issuance)
    | VLocalIntent(intent: LocalIntent)
    | VReceipt(receipt: Receipt)

  type Journal = map<Slot, Value>

  function Lookup(j: Journal, slot: Slot): Option<Value> {
    if slot in j then Some(j[slot]) else None
  }

  /** Records written while steps are carried out, as opposed to admissions. */
  predicate StepRecord(key: Key) {
    key.EffectKey? || key.ReceiptKey? || key.TransportKey?
  }

  ghost predicate SameAdmissions(j: Journal, j': Journal) {
    forall slot: Slot | !StepRecord(slot.key) :: Lookup(j, slot) == Lookup(j', slot)
  }

  function RequestOf(plan: Plan, base: Baseline, release: Proof, step: Step): Request {
    Request(plan.tx, plan, step.spot.node, BootOf(plan, step.spot.node), step.spot.unit, step.op, base, release)
  }

  function BootOf(plan: Plan, node: string): string {
    BootFrom(plan.participants, node)
  }

  function BootFrom(rows: seq<Participant>, node: string): string {
    if rows == [] then "" else if rows[0].node == node then rows[0].bootId else BootFrom(rows[1..], node)
  }

  /** A row's boot, found by its node's name. */
  lemma {:induction false} BootIs(rows: seq<Participant>, r: nat)
    requires r < |rows| && forall i, k | 0 <= i < k < |rows| :: rows[i].node != rows[k].node
    ensures BootFrom(rows, rows[r].node) == rows[r].bootId
  {
    if r > 0 { BootIs(rows[1..], r - 1); }
  }

  /** What the coordinator asks for: this plan's step, on this boot of the node, under
      this baseline and this release. */
  lemma {:induction false} RequestNames(plan: Plan, now: int, base: Baseline, release: Proof, step: Step, r: nat)
    requires ValidPlan(plan, now) && r < |plan.participants| && plan.participants[r].node == step.spot.node
    ensures var q := RequestOf(plan, base, release, step);
            && q.tx == plan.tx && q.plan == plan && q.node == step.spot.node && q.bootId == plan.participants[r].bootId
            && q.unit == step.spot.unit && q.op == step.op && q.baseline == base && q.release == release
  {
    BootIs(plan.participants, r);
  }

  function StepOf(r: Request): Step {
    Step(Spot(r.node, r.unit), r.op)
  }

  function Local(step: Step, part: Part): Slot {
    Slot(Node(step.spot.node), EffectKey(step, part))
  }

  function Central(step: Step, part: Part): Slot {
    Slot(Coordinator, EffectKey(step, part))
  }

  function ReceiptSlot(step: Step): Slot {
    Slot(Coordinator, ReceiptKey(step))
  }

  function TransportSlot(step: Step, finished: bool): Slot {
    Slot(Coordinator, TransportKey(step, finished))
  }
}
