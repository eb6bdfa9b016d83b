/** The integrated executor ledger: its full validity predicate and the five
    protocol operations (executor-integrated-admission-lab.py), on top of the
    admission rules of SharedLvmAdmission.pm.  A digest is represented by the value
    it is a digest of. */
module IntegratedLedger {
  import opened Common

  /** The volume key hash, and the textual form a named field must have. */
  datatype Env = Env(volumeKey: (string, string) -> string, shaped: (string, string) -> bool)

  datatype Host = Host(node: string, bootId: string)

  datatype Launch = Launch(attempt: string, unit: string, bootId: string, command: string)
  datatype Startup = Startup(
    attempt: string, unit: string, invocation: string, bootId: string, nonce: string, pid: int, ticks: int,
    runner: string, command: string, controlGroup: string, operation: string)
  datatype Grant = Grant(
    authorityId: string, epoch: string, transaction: string, code: string, policy: string, startup: Startup)
  datatype Dispatch = Dispatch(grant: Grant, sealed: Grant, issuedRevision: int)

  datatype Origin = RUNTIME_COLLECTED | MODEL_SYNTHETIC
  datatype Identity = Identity(
    authorityId: string, epoch: string, objectKey: string, transaction: string, attempt: string, unit: string,
    invocation: string, bootId: string)
  datatype Marker = Marker(attempt: string, transaction: string, invocation: string, grant: Grant, operation: string)
  datatype Proof = Proof(
    origin: Origin, identity: Identity, grant: Grant, operation: string, marker: Marker, markerSeal: Marker,
    controllerCommand: string, invocation: string, pid: int, ticks: int)
  datatype Evidence = Evidence(
    identity: Record, cgroupTerminal: int, jobsAbsent: int, ioTerminal: int, storageProven: int, result: string)
  datatype Finish = Finish(proof: Proof, proofSeal: Proof, evidence: Evidence, evidenceSeal: Evidence, observedRevision: int)

  datatype Slot = Slot(
    record: Record, launch: Option<Launch>, startup: Option<Startup>, dispatch: Option<Dispatch>,
    finish: Option<Finish>, hold: Option<string>)

  datatype Ledger = Ledger(
    schema: int, revision: int, authorityId: string, node: string, bootId: string, epoch: string,
    consumed: seq<string>, slots: map<string, Slot>)

  const FIELDS := {"schema", "kind", "enrollment_epoch", "vg_uuid", "volume", "object_key", "transaction", "attempt",
                   "node", "boot_id", "unit", "code_digest", "policy_digest", "state", "invocation_id", "executor_result"}
  const IDENTITY := ["schema", "kind", "enrollment_epoch", "vg_uuid", "volume", "object_key", "transaction", "attempt",
                     "node", "boot_id", "unit", "code_digest", "policy_digest"]

  function State(r: Record): string {
    Get(r, "state")
  }

  function UnitOf(attempt: string): string {
    "slt-thick-lab-exec-" + attempt + ".service"
  }

  // ----- the admission rules -----

  /** validate_executor_record, for laboratory records. */
  predicate RecordOk(env: Env, r: Record) {
    && r.Keys <= FIELDS && Get(r, "schema") == "1" && Get(r, "kind") == "THICK_EXECUTOR_LAB"
    && Hex(Get(r, "enrollment_epoch"), 64) && Hex(Get(r, "code_digest"), 64) && Hex(Get(r, "policy_digest"), 64)
    && env.shaped("vg_uuid", Get(r, "vg_uuid")) && env.shaped("volume", Get(r, "volume"))
    && Hex(Get(r, "object_key"), 24) && Hex(Get(r, "transaction"), 32) && Hex(Get(r, "attempt"), 32)
    && env.shaped("node", Get(r, "node")) && env.shaped("boot_id", Get(r, "boot_id"))
    && Get(r, "unit") == UnitOf(Get(r, "attempt"))
    && State(r) in {"RESERVED", "BOUND", "TERMINAL", "UNKNOWN"}
    && (if State(r) == "RESERVED" then "invocation_id" !in r && "executor_result" !in r
        else Hex(Get(r, "invocation_id"), 32))
    && (if State(r) == "TERMINAL" then Get(r, "executor_result") in {"SUCCESS", "FAILED"} else "executor_result" !in r)
  }

  predicate SameIdentity(a: Record, b: Record) {
    forall i | 0 <= i < |IDENTITY| :: Get(a, IDENTITY[i]) == Get(b, IDENTITY[i])
  }

  predicate MayReserve(env: Env, requested: Record, existing: Option<Record>, continuity: bool, unused: bool) {
    RecordOk(env, requested) && State(requested) == "RESERVED" && continuity && unused && existing == None
  }

  function BindRecord(env: Env, record: Record, identity: Record, invocation: string, started: bool): Option<Record> {
    if && RecordOk(env, record) && State(record) == "RESERVED"
       && RecordOk(env, identity) && SameIdentity(record, identity) && State(identity) == "RESERVED"
       && Hex(invocation, 32) && started
    then Some(record["state" := "BOUND"]["invocation_id" := invocation]) else None
  }

  predicate MayDispatch(env: Env, persisted: Record, identity: Record, bindingPersisted: bool) {
    && RecordOk(env, persisted) && State(persisted) == "BOUND"
    && RecordOk(env, identity) && SameIdentity(persisted, identity) && State(identity) == "BOUND"
    && Get(identity, "invocation_id") == Get(persisted, "invocation_id") && bindingPersisted
  }

  function FinishRecord(env: Env, record: Record, e: Evidence): Option<Record> {
    if && RecordOk(env, record) && State(record) == "BOUND"
       && RecordOk(env, e.identity) && SameIdentity(record, e.identity) && State(e.identity) == "BOUND"
       && Get(e.identity, "invocation_id") == Get(record, "invocation_id")
    then
      if e.cgroupTerminal == 1 && e.jobsAbsent == 1 && e.ioTerminal == 1 && e.storageProven == 1
         && e.result in {"SUCCESS", "FAILED"}
      then Some(record["state" := "TERMINAL"]["executor_result" := e.result])
      else Some(record["state" := "UNKNOWN"])
    else None
  }

  // ----- the validators -----

  predicate ValidStartup(env: Env, s: Startup) {
    && Hex(s.attempt, 32) && Hex(s.invocation, 32) && Hex(s.nonce, 32)
    && Hex(s.runner, 64) && Hex(s.command, 64) && Hex(s.operation, 64)
    && env.shaped("boot_id", s.bootId) && s.unit == UnitOf(s.attempt) && s.pid >= 1 && s.ticks >= 1
    && s.controlGroup == "/system.slice/" + s.unit
  }

  predicate ValidGrant(env: Env, g: Grant) {
    && ValidStartup(env, g.startup) && Hex(g.authorityId, 32) && Hex(g.transaction, 32)
    && Hex(g.epoch, 64) && Hex(g.code, 64) && Hex(g.policy, 64)
  }

  predicate ValidProof(env: Env, p: Proof) {
    && p.markerSeal == p.marker && Hex(p.controllerCommand, 64) && Hex(p.invocation, 32) && p.pid >= 1 && p.ticks >= 1
    && Hex(p.operation, 64) && Hex(p.identity.epoch, 64) && Hex(p.identity.authorityId, 32)
    && Hex(p.identity.transaction, 32) && Hex(p.identity.attempt, 32) && Hex(p.identity.invocation, 32)
    && Hex(p.identity.objectKey, 24) && env.shaped("boot_id", p.identity.bootId)
  }

  predicate ValidEvidence(e: Evidence) {
    && State(e.identity) == "BOUND"
    && e.cgroupTerminal in {0, 1} && e.jobsAbsent in {0, 1} && e.ioTerminal in {0, 1} && e.storageProven in {0, 1}
    && e.result in {"SUCCESS", "FAILED", "UNKNOWN"}
  }

  /** evidence_from_terminal_proof. */
  function EvidenceFrom(env: Env, bound: Record, p: Proof, authorityId: string, d: Dispatch): Option<Evidence> {
    var s := d.grant.startup;
    if && ValidProof(env, p)
       && p.identity == Identity(authorityId, Get(bound, "enrollment_epoch"), Get(bound, "object_key"),
                                 Get(bound, "transaction"), Get(bound, "attempt"), Get(bound, "unit"),
                                 Get(bound, "invocation_id"), Get(bound, "boot_id"))
       && p.grant == d.sealed && p.operation == s.operation
       && p.marker == Marker(Get(bound, "attempt"), Get(bound, "transaction"), Get(bound, "invocation_id"), d.sealed, s.operation)
       && p.invocation == s.invocation && p.pid == s.pid && p.ticks == s.ticks
    then Some(Evidence(bound, 1, 1, 1, 1, "SUCCESS")) else None
  }

  function Rebound(record: Record): Record {
    record["state" := "BOUND"] - {"executor_result"}
  }

  predicate LaunchOk(r: Record, l: Launch) {
    l.attempt == Get(r, "attempt") && l.unit == Get(r, "unit") && l.bootId == Get(r, "boot_id") && Hex(l.command, 64)
  }

  predicate StartupOk(env: Env, slot: Slot, s: Startup) {
    && ValidStartup(env, s) && slot.launch.Some?
    && s.attempt == Get(slot.record, "attempt") && s.unit == Get(slot.record, "unit") && s.bootId == Get(slot.record, "boot_id")
    && s.command == slot.launch.value.command
    && (State(slot.record) in {"BOUND", "TERMINAL", "UNKNOWN"} ==> s.invocation == Get(slot.record, "invocation_id"))
  }

  predicate DispatchOk(env: Env, d: Ledger, slot: Slot, x: Dispatch) {
    && ValidGrant(env, x.grant) && x.sealed == x.grant && 1 <= x.issuedRevision <= d.revision
    && x.grant.startup.attempt == Get(slot.record, "attempt") && x.grant.transaction == Get(slot.record, "transaction")
    && x.grant.startup.unit == Get(slot.record, "unit") && x.grant.startup.invocation == Get(slot.record, "invocation_id")
    && x.grant.startup.bootId == Get(slot.record, "boot_id") && x.grant.code == Get(slot.record, "code_digest")
    && x.grant.policy == Get(slot.record, "policy_digest")
    && x.grant.authorityId == d.authorityId && x.grant.epoch == d.epoch
    && slot.startup == Some(x.grant.startup)
  }

  predicate FinishOk(env: Env, d: Ledger, slot: Slot, f: Finish) {
    && d.schema == 2 && slot.dispatch.Some?
    && ValidProof(env, f.proof) && ValidEvidence(f.evidence)
    && f.proofSeal == f.proof && f.evidenceSeal == f.evidence
    && slot.dispatch.value.issuedRevision < f.observedRevision <= d.revision
    && EvidenceFrom(env, Rebound(slot.record), f.proof, d.authorityId, slot.dispatch.value) == Some(f.evidence)
    && FinishRecord(env, Rebound(slot.record), f.evidence) == Some(slot.record)
  }

  predicate SlotOk(env: Env, d: Ledger, key: string, slot: Slot) {
    var r, state := slot.record, State(slot.record);
    && Hex(key, 24) && RecordOk(env, r)
    && Get(r, "object_key") == key && Get(r, "attempt") in d.consumed
    && key == env.volumeKey(Get(r, "vg_uuid"), Get(r, "volume"))
    && Get(r, "enrollment_epoch") == d.epoch && Get(r, "node") == d.node && Get(r, "boot_id") == d.bootId
    && (slot.hold.Some? ==> slot.hold.value != "")
    && (slot.launch.Some? ==> LaunchOk(r, slot.launch.value))
    && (slot.startup.Some? ==> StartupOk(env, slot, slot.startup.value))
    && (state == "RESERVED" ==> slot.dispatch == None && slot.startup == None)
    && (state != "RESERVED" ==> slot.launch.Some? && slot.startup.Some?)
    && (slot.dispatch.Some? ==> DispatchOk(env, d, slot, slot.dispatch.value))
    && (state in {"RESERVED", "BOUND"} ==> slot.finish == None)
    && (state in {"TERMINAL", "UNKNOWN"} ==> slot.finish.Some? && FinishOk(env, d, slot, slot.finish.value))
    && (d.schema == 1 ==> slot.finish == None)
  }

  predicate HeaderOk(env: Env, d: Ledger, minimum: int) {
    && d.schema in {1, 2} && d.revision >= minimum
    && Hex(d.authorityId, 32) && env.shaped("authority_node", d.node) && env.shaped("boot_id", d.bootId) && Hex(d.epoch, 64)
    && (forall i, j | 0 <= i < j < |d.consumed| :: d.consumed[i] != d.consumed[j])
    && (forall a | a in d.consumed :: Hex(a, 32))
  }

  predicate AttemptsApart(d: Ledger) {
    forall k, l | k in d.slots && l in d.slots && Get(d.slots[k].record, "attempt") == Get(d.slots[l].record, "attempt") :: k == l
  }

  /** _validate. */
  predicate Valid(env: Env, d: Ledger, minimum: int) {
    && HeaderOk(env, d, minimum)
    && (forall key | key in d.slots :: SlotOk(env, d, key, d.slots[key]))
    && AttemptsApart(d)
  }

  // ----- the operations, before they are stored -----

  predicate Continuity(d: Ledger, host: Host) {
    d.node == host.node && d.bootId == host.bootId
  }

  function WithSlot(d: Ledger, key: string, slot: Slot): Ledger {
    d.(slots := d.slots[key := slot])
  }

  function ReserveOp(env: Env, d: Ledger, host: Host, requested: Record): Option<Ledger> {
    var key, attempt := Get(requested, "object_key"), Get(requested, "attempt");
    if key != env.volumeKey(Get(requested, "vg_uuid"), Get(requested, "volume")) then None
    else if !Continuity(d, host) || Get(requested, "node") != d.node || Get(requested, "boot_id") != d.bootId
            || Get(requested, "enrollment_epoch") != d.epoch then None
    else if !MayReserve(env, requested, if key in d.slots then Some(d.slots[key].record) else None, true, attempt !in d.consumed)
    then None
    else Some(WithSlot(d.(consumed := d.consumed + [attempt]), key, Slot(requested, None, None, None, None, None)))
  }

  /** The compare part of a compare-and-swap on a slot in use. */
  predicate Stands(d: Ledger, host: Host, expected: Record, state: string) {
    var key := Get(expected, "object_key");
    && key in d.slots && d.slots[key].record == expected && d.slots[key].hold == None
    && Continuity(d, host) && State(expected) == state
  }

  function LaunchOp(d: Ledger, host: Host, expected: Record, command: string): Option<Ledger> {
    var key := Get(expected, "object_key");
    if Stands(d, host, expected, "RESERVED") && d.slots[key].launch == None && d.slots[key].dispatch == None
    then Some(WithSlot(d, key, d.slots[key].(launch := Some(Launch(Get(expected, "attempt"), Get(expected, "unit"),
                                                                   Get(expected, "boot_id"), command)))))
    else None
  }

  function BindOp(env: Env, d: Ledger, host: Host, expected: Record, runner: Startup): Option<Ledger> {
    var key := Get(expected, "object_key");
    if !Stands(d, host, expected, "RESERVED") || d.slots[key].launch == None || d.slots[key].dispatch != None then None
    else
      var launch := d.slots[key].launch.value;
      if !ValidStartup(env, runner) || runner.attempt != launch.attempt || runner.unit != launch.unit
         || runner.bootId != launch.bootId || runner.command != launch.command then None
      else
        match BindRecord(env, expected, expected, runner.invocation, true)
        case None => None
        case Some(bound) => Some(WithSlot(d, key, d.slots[key].(record := bound, startup := Some(runner))))
  }

  function DispatchOp(env: Env, d: Ledger, host: Host, bound: Record, grant: Grant): Option<Ledger> {
    var key := Get(bound, "object_key");
    if !Stands(d, host, bound, "BOUND") || d.slots[key].launch == None || d.slots[key].dispatch != None then None
    else if !ValidGrant(env, grant) then None
    else if grant.startup.attempt != Get(bound, "attempt") || grant.transaction != Get(bound, "transaction")
            || grant.startup.unit != Get(bound, "unit") || grant.startup.invocation != Get(bound, "invocation_id")
            || grant.startup.bootId != Get(bound, "boot_id") || grant.code != Get(bound, "code_digest")
            || grant.policy != Get(bound, "policy_digest") then None
    else if grant.authorityId != d.authorityId || grant.epoch != d.epoch
            || grant.epoch != Get(bound, "enrollment_epoch") then None
    else if d.slots[key].startup != Some(grant.startup) then None
    else if !MayDispatch(env, bound, bound, true) then None
    else Some(WithSlot(d, key, d.slots[key].(dispatch := Some(Dispatch(grant, grant, d.revision + 1)))))
  }

  function FinishOp(env: Env, d: Ledger, host: Host, bound: Record, proof: Proof, fixture: bool): Option<Ledger> {
    var key := Get(bound, "object_key");
    if !ValidProof(env, proof) || d.schema != 2 || (proof.origin != RUNTIME_COLLECTED && !fixture) then None
    else if !Stands(d, host, bound, "BOUND") || d.slots[key].dispatch == None || d.slots[key].finish != None then None
    else
      match EvidenceFrom(env, bound, proof, d.authorityId, d.slots[key].dispatch.value)
      case None => None
      case Some(evidence) =>
        match FinishRecord(env, bound, evidence)
        case None => None
        case Some(record) =>
          Some(WithSlot(d, key, d.slots[key].(record := record,
                                              finish := Some(Finish(proof, proof, evidence, evidence, d.revision + 1)))))
  }

  /** _store: the next revision, if it is valid. */
  function Stored(env: Env, updated: Ledger): Option<Ledger> {
    var next := updated.(revision := updated.revision + 1);
    if Valid(env, next, 1) then Some(next) else None
  }

  // ----- what is kept -----

  function Next(d: Ledger): Ledger {
    d.(revision := d.revision + 1)
  }

  predicate Later(d: Ledger, e: Ledger) {
    && e.schema == d.schema && e.authorityId == d.authorityId && e.node == d.node && e.bootId == d.bootId && e.epoch == d.epoch
    && d.revision <= e.revision && d.consumed <= e.consumed
  }

  lemma {:induction false} SlotStays(env: Env, d: Ledger, e: Ledger, key: string, slot: Slot)
    requires SlotOk(env, d, key, slot) && Later(d, e)
    ensures SlotOk(env, e, key, slot)
  {
    hide RecordOk, ValidProof, ValidGrant, ValidStartup, EvidenceFrom, FinishRecord, Hex;
  }

  /** A slot changes, or comes, and the rest of the ledger stays. */
  lemma {:induction false} OneSlot(env: Env, d: Ledger, e: Ledger, key: string, slot: Slot)
    requires Valid(env, d, 1) && Later(d, e) && e.slots == d.slots[key := slot] && HeaderOk(env, e, 1)
    requires SlotOk(env, e, key, slot)
    requires if key in d.slots then Get(slot.record, "attempt") == Get(d.slots[key].record, "attempt")
             else Get(slot.record, "attempt") !in d.consumed
    ensures Valid(env, e, 1)
  {
    hide HeaderOk, Later;
    forall k | k in e.slots ensures SlotOk(env, e, k, e.slots[k]) {
      if k != key { SlotStays(env, d, e, k, d.slots[k]); }
    }
    hide SlotOk;
    AttemptsStayApart(env, d, e, key, slot);
  }

  lemma {:induction false} AttemptsStayApart(env: Env, d: Ledger, e: Ledger, key: string, slot: Slot)
    requires Valid(env, d, 1) && e.slots == d.slots[key := slot]
    requires if key in d.slots then Get(slot.record, "attempt") == Get(d.slots[key].record, "attempt")
             else Get(slot.record, "attempt") !in d.consumed
    ensures AttemptsApart(e)
  {
    hide HeaderOk, RecordOk, DispatchOk, FinishOk, StartupOk, LaunchOk, Hex, Get;
    forall k | k in d.slots ensures Get(d.slots[k].record, "attempt") in d.consumed {
      assert SlotOk(env, d, k, d.slots[k]);
    }
  }

  lemma {:induction false} ReserveIsStored(env: Env, d: Ledger, host: Host, requested: Record)
    requires Valid(env, d, 1) && ReserveOp(env, d, host, requested).Some?
    ensures Valid(env, Next(ReserveOp(env, d, host, requested).value), 1)
  {
    hide Valid, SlotOk;
    var key := Get(requested, "object_key");
    var slot := Slot(requested, None, None, None, None, None);
    var e := Next(ReserveOp(env, d, host, requested).value);
    ReserveHeader(env, d, Get(requested, "attempt"));
    ReservedSlotIsOk(env, e, requested);
    OneSlot(env, d, e, key, slot);
  }

  lemma {:induction false} ReserveHeader(env: Env, d: Ledger, attempt: string)
    requires Valid(env, d, 1) && attempt !in d.consumed && Hex(attempt, 32)
    ensures HeaderOk(env, Next(d.(consumed := d.consumed + [attempt])), 1)
  {
    hide Hex, SlotOk, AttemptsApart;
  }

  lemma {:induction false} ReservedSlotIsOk(env: Env, e: Ledger, requested: Record)
    requires RecordOk(env, requested) && State(requested) == "RESERVED"
    requires Get(requested, "object_key") == env.volumeKey(Get(requested, "vg_uuid"), Get(requested, "volume"))
    requires Get(requested, "attempt") in e.consumed
    requires Get(requested, "node") == e.node && Get(requested, "boot_id") == e.bootId && Get(requested, "enrollment_epoch") == e.epoch
    ensures SlotOk(env, e, Get(requested, "object_key"), Slot(requested, None, None, None, None, None))
  {
    hide Hex;
  }

  lemma {:induction false} HeaderStays(env: Env, d: Ledger, slots: map<string, Slot>)
    requires Valid(env, d, 1)
    ensures HeaderOk(env, Next(d.(slots := slots)), 1) && Later(d, Next(d.(slots := slots)))
  {
    hide SlotOk, AttemptsApart, Hex;
  }

  lemma {:induction false} ValidSlot(env: Env, d: Ledger, key: string)
    requires Valid(env, d, 1) && key in d.slots
    ensures SlotOk(env, d, key, d.slots[key])
  {
    hide HeaderOk, SlotOk;
  }

  /** A launch is stored exactly when its command is a digest; nothing before the
      store looks at it. */
  lemma {:induction false} LaunchIsStored(env: Env, d: Ledger, host: Host, expected: Record, command: string)
    requires Valid(env, d, 1) && LaunchOp(d, host, expected, command).Some?
    ensures Valid(env, Next(LaunchOp(d, host, expected, command).value), 1) <==> Hex(command, 64)
  {
    hide Valid, SlotOk, Hex;
    var key := Get(expected, "object_key");
    var e := Next(LaunchOp(d, host, expected, command).value);
    ValidSlot(env, d, key);
    HeaderStays(env, d, e.slots);
    LaunchedSlot(env, d, e, key, e.slots[key].launch.value);
    if Hex(command, 64) {
      OneSlot(env, d, e, key, e.slots[key]);
    } else if Valid(env, e, 1) {
      ValidSlot(env, e, key);
    }
  }

  function Zeros(n: nat): (s: string)
    ensures Hex(s, n)
  {
    seq(n, i => '0')
  }

  function Example(): Record {
    map["schema" := "1", "kind" := "THICK_EXECUTOR_LAB", "enrollment_epoch" := Zeros(64), "vg_uuid" := "v", "volume" := "w",
        "object_key" := Zeros(24), "transaction" := Zeros(32), "attempt" := Zeros(32), "node" := "n", "boot_id" := "b",
        "unit" := UnitOf(Zeros(32)), "code_digest" := Zeros(64), "policy_digest" := Zeros(64), "state" := "RESERVED"]
  }

  /** An operation may allow what the store then refuses: a reserved slot and a
      launch command that is no digest. */
  lemma {:induction false} AllowedLaunchMayBeRefused() returns (env: Env, d: Ledger, host: Host, expected: Record)
    ensures Valid(env, d, 1) && LaunchOp(d, host, expected, "").Some?
    ensures Stored(env, LaunchOp(d, host, expected, "").value) == None
  {
    hide RecordOk, Hex, Example, UnitOf, Get, State, Zeros;
    env := Env((v, w) => Zeros(24), (field, text) => true);
    host, expected := Host("n", "b"), Example();
    ExampleIsReserved(env);
    d := Ledger(2, 1, Zeros(32), "n", "b", Zeros(64), [Zeros(32)],
                map[Zeros(24) := Slot(expected, None, None, None, None, None)]);
    ReservedSlotIsOk(env, d, expected);
    hide SlotOk;
    LaunchIsStored(env, d, host, expected, "");
    NoDigestIsEmpty();
  }

  lemma {:induction false} ExampleIsReserved(env: Env)
    requires forall field, text :: env.shaped(field, text)
    ensures var r := Example();
            && RecordOk(env, r) && State(r) == "RESERVED" && Get(r, "object_key") == Zeros(24)
            && Get(r, "attempt") == Zeros(32) && Get(r, "node") == "n" && Get(r, "boot_id") == "b"
            && Get(r, "enrollment_epoch") == Zeros(64)
  {
    hide Hex, UnitOf, Zeros, Get;
    ExampleFields();
    var r := Example();
    assert r.Keys <= FIELDS && "invocation_id" !in r && "executor_result" !in r;
    hide Example;
  }

  lemma {:induction false} ExampleFields()
    ensures var r := Example();
            && Get(r, "schema") == "1" && Get(r, "kind") == "THICK_EXECUTOR_LAB" && Get(r, "object_key") == Zeros(24)
            && Get(r, "attempt") == Get(r, "transaction") == Zeros(32) && Get(r, "node") == "n" && Get(r, "boot_id") == "b"
            && Get(r, "enrollment_epoch") == Get(r, "code_digest") == Get(r, "policy_digest") == Zeros(64)
            && Get(r, "unit") == UnitOf(Zeros(32)) && Get(r, "state") == "RESERVED"
  {
    hide UnitOf, Zeros;
  }

  lemma {:induction false} NoDigestIsEmpty()
    ensures !Hex("", 64)
  {}

  lemma {:induction false} LaunchedSlot(env: Env, d: Ledger, e: Ledger, key: string, launch: Launch)
    requires key in d.slots && SlotOk(env, d, key, d.slots[key]) && Later(d, e)
    requires State(d.slots[key].record) == "RESERVED"
    requires launch == Launch(Get(d.slots[key].record, "attempt"), Get(d.slots[key].record, "unit"),
                              Get(d.slots[key].record, "boot_id"), launch.command)
    ensures SlotOk(env, e, key, d.slots[key].(launch := Some(launch))) <==> Hex(launch.command, 64)
  {
    hide RecordOk, Hex;
  }

  lemma {:induction false} BindIsStored(env: Env, d: Ledger, host: Host, expected: Record, runner: Startup)
    requires Valid(env, d, 1) && BindOp(env, d, host, expected, runner).Some?
    ensures Valid(env, Next(BindOp(env, d, host, expected, runner).value), 1)
  {
    hide Valid, SlotOk, Hex, ValidStartup;
    var key := Get(expected, "object_key");
    var e := Next(BindOp(env, d, host, expected, runner).value);
    ValidSlot(env, d, key);
    HeaderStays(env, d, e.slots);
    BoundSlot(env, d, e, key, runner);
    OneSlot(env, d, e, key, e.slots[key]);
  }

  lemma {:induction false} BoundRecord(env: Env, r: Record, invocation: string)
    requires RecordOk(env, r) && State(r) == "RESERVED" && Hex(invocation, 32)
    ensures var b := r["state" := "BOUND"]["invocation_id" := invocation];
            && RecordOk(env, b) && State(b) == "BOUND" && Get(b, "invocation_id") == invocation
            && forall field | field !in {"state", "invocation_id"} :: Get(b, field) == Get(r, field)
  {
    hide Hex;
  }

  lemma {:induction false} BoundSlot(env: Env, d: Ledger, e: Ledger, key: string, runner: Startup)
    requires key in d.slots && SlotOk(env, d, key, d.slots[key]) && Later(d, e)
    requires State(d.slots[key].record) == "RESERVED" && d.slots[key].launch.Some?
    requires ValidStartup(env, runner)
    requires var l := d.slots[key].launch.value;
             runner.attempt == l.attempt && runner.unit == l.unit && runner.bootId == l.bootId && runner.command == l.command
    ensures SlotOk(env, e, key, d.slots[key].(
                     record := d.slots[key].record["state" := "BOUND"]["invocation_id" := runner.invocation],
                     startup := Some(runner)))
  {
    BoundRecord(env, d.slots[key].record, runner.invocation);
    hide RecordOk, Hex;
  }

  lemma {:induction false} DispatchIsStored(env: Env, d: Ledger, host: Host, bound: Record, grant: Grant)
    requires Valid(env, d, 1) && DispatchOp(env, d, host, bound, grant).Some?
    ensures Valid(env, Next(DispatchOp(env, d, host, bound, grant).value), 1)
  {
    hide Valid, SlotOk, ValidGrant, RecordOk, SameIdentity;
    var key := Get(bound, "object_key");
    var e := Next(DispatchOp(env, d, host, bound, grant).value);
    ValidSlot(env, d, key);
    HeaderStays(env, d, e.slots);
    DispatchedSlot(env, d, e, key, Dispatch(grant, grant, d.revision + 1));
    OneSlot(env, d, e, key, e.slots[key]);
  }

  lemma {:induction false} DispatchedSlot(env: Env, d: Ledger, e: Ledger, key: string, x: Dispatch)
    requires key in d.slots && SlotOk(env, d, key, d.slots[key]) && Later(d, e)
    requires State(d.slots[key].record) == "BOUND"
    requires DispatchOk(env, e, d.slots[key], x)
    ensures SlotOk(env, e, key, d.slots[key].(dispatch := Some(x)))
  {
    hide RecordOk, Hex, ValidGrant, ValidStartup;
  }

  lemma {:induction false} FinishIsStored(env: Env, d: Ledger, host: Host, bound: Record, proof: Proof, fixture: bool)
    requires Valid(env, d, 1) && FinishOp(env, d, host, bound, proof, fixture).Some?
    ensures Valid(env, Next(FinishOp(env, d, host, bound, proof, fixture).value), 1)
  {
    hide Valid, SlotOk, ValidProof, RecordOk, SameIdentity, EvidenceFrom, FinishRecord;
    var key := Get(bound, "object_key");
    var e := Next(FinishOp(env, d, host, bound, proof, fixture).value);
    ValidSlot(env, d, key);
    HeaderStays(env, d, e.slots);
    FinishedSlot(env, d, e, key, e.slots[key].finish.value);
    OneSlot(env, d, e, key, e.slots[key]);
  }

  /** Evidence derived from a proof is always complete, so a finish always ends in
      TERMINAL and SUCCESS: MARK_UNKNOWN cannot come out of finish_exact. */
  lemma {:induction false} FinishIsSuccess(env: Env, bound: Record, proof: Proof, authorityId: string, x: Dispatch)
    requires EvidenceFrom(env, bound, proof, authorityId, x).Some?
    requires FinishRecord(env, bound, EvidenceFrom(env, bound, proof, authorityId, x).value).Some?
    ensures RecordOk(env, bound) && State(bound) == "BOUND"
    ensures var r := FinishRecord(env, bound, EvidenceFrom(env, bound, proof, authorityId, x).value).value;
            && r == bound["state" := "TERMINAL"]["executor_result" := "SUCCESS"]
            && RecordOk(env, r) && State(r) == "TERMINAL" && Rebound(r) == bound
            && (forall field | field !in {"state", "executor_result"} :: Get(r, field) == Get(bound, field))
  {
    hide Hex, ValidProof, SameIdentity;
  }

  lemma {:induction false} FinishedSlot(env: Env, d: Ledger, e: Ledger, key: string, f: Finish)
    requires key in d.slots && SlotOk(env, d, key, d.slots[key]) && Later(d, e) && d.schema == 2
    requires State(d.slots[key].record) == "BOUND" && d.slots[key].dispatch.Some?
    requires ValidProof(env, f.proof) && f.proofSeal == f.proof && f.evidenceSeal == f.evidence
    requires f.observedRevision == d.revision + 1 == e.revision
    requires EvidenceFrom(env, d.slots[key].record, f.proof, d.authorityId, d.slots[key].dispatch.value) == Some(f.evidence)
    requires FinishRecord(env, d.slots[key].record, f.evidence).Some?
    ensures SlotOk(env, e, key, d.slots[key].(record := FinishRecord(env, d.slots[key].record, f.evidence).value,
                                              finish := Some(f)))
    ensures Get(FinishRecord(env, d.slots[key].record, f.evidence).value, "attempt") == Get(d.slots[key].record, "attempt")
  {
    FinishIsSuccess(env, d.slots[key].record, f.proof, d.authorityId, d.slots[key].dispatch.value);
    EvidenceIsValid(env, d.slots[key].record, f.proof, d.authorityId, d.slots[key].dispatch.value);
    var slot := d.slots[key];
    var done := slot.(record := FinishRecord(env, slot.record, f.evidence).value, finish := Some(f));
    FinishedHistory(env, d, e, slot, done);
    hide RecordOk, Hex, ValidProof, ValidGrant, ValidStartup, FinishRecord, EvidenceFrom, Rebound, StartupOk, DispatchOk, LaunchOk;
  }

  /** The launch, the startup and the dispatch of a slot still fit when only the
      state and the result of its record change. */
  lemma {:induction false} FinishedHistory(env: Env, d: Ledger, e: Ledger, slot: Slot, done: Slot)
    requires slot.launch.Some? && slot.startup.Some? && slot.dispatch.Some? && Later(d, e)
    requires LaunchOk(slot.record, slot.launch.value) && StartupOk(env, slot, slot.startup.value)
    requires DispatchOk(env, d, slot, slot.dispatch.value) && State(slot.record) == "BOUND"
    requires done.launch == slot.launch && done.startup == slot.startup && done.dispatch == slot.dispatch
    requires forall field | field !in {"state", "executor_result"} :: Get(done.record, field) == Get(slot.record, field)
    ensures LaunchOk(done.record, done.launch.value) && StartupOk(env, done, done.startup.value)
    ensures DispatchOk(env, e, done, done.dispatch.value)
  {
    hide Hex, ValidGrant, ValidStartup;
  }

  lemma {:induction false} EvidenceIsValid(env: Env, bound: Record, proof: Proof, authorityId: string, x: Dispatch)
    requires EvidenceFrom(env, bound, proof, authorityId, x).Some? && State(bound) == "BOUND"
    ensures ValidEvidence(EvidenceFrom(env, bound, proof, authorityId, x).value)
  {
    hide ValidProof;
  }

  // ----- the ledger file -----

  predicate OnHost(d: Ledger, host: Host) {
    d.node == host.node && d.bootId == host.bootId
  }

  /** A slot that holds the expected record in the expected state, is not held back
      and not dispatched. */
  predicate Free(slot: Slot, expected: Record, state: string) {
    slot.record == expected && Get(expected, "state") == state && slot.hold == None && slot.dispatch == None
  }

  predicate Dispatched(slot: Slot, bound: Record) {
    slot.record == bound && Get(bound, "state") == "BOUND" && slot.hold == None && slot.dispatch.Some? && slot.finish == None
  }

  /** The terminal proof is of this very slot: its record, its grant and its process. */
  predicate Proves(d: Ledger, slot: Slot, p: Proof) {
    var r := slot.record;
    && slot.dispatch.Some?
    && var g := slot.dispatch.value.grant;
       && p.identity.authorityId == d.authorityId && p.identity.epoch == Get(r, "enrollment_epoch")
       && p.identity.objectKey == Get(r, "object_key") && p.identity.transaction == Get(r, "transaction")
       && p.identity.attempt == Get(r, "attempt") && p.identity.unit == Get(r, "unit")
       && p.identity.invocation == Get(r, "invocation_id") && p.identity.bootId == Get(r, "boot_id")
       && p.grant == g && p.operation == g.startup.operation
       && p.marker.attempt == Get(r, "attempt") && p.marker.transaction == Get(r, "transaction")
       && p.marker.invocation == Get(r, "invocation_id") && p.marker.grant == g && p.marker.operation == g.startup.operation
       && p.invocation == g.startup.invocation && p.pid == g.startup.pid && p.ticks == g.startup.ticks
  }

  lemma {:induction false} BindGuard(env: Env, d: Ledger, host: Host, expected: Record, runner: Startup)
    requires Valid(env, d, 1)
    ensures var key := Get(expected, "object_key");
            BindOp(env, d, host, expected, runner).Some?
            <==> && OnHost(d, host) && key in d.slots && Free(d.slots[key], expected, "RESERVED")
                 && d.slots[key].launch == Some(Launch(runner.attempt, runner.unit, runner.bootId, runner.command))
                 && ValidStartup(env, runner)
  {
    hide Valid, Hex, RecordOk;
    var key := Get(expected, "object_key");
    if key in d.slots { ValidSlot(env, d, key); }
  }

  lemma {:induction false} DispatchGuard(env: Env, d: Ledger, host: Host, bound: Record, grant: Grant)
    requires Valid(env, d, 1)
    ensures var key := Get(bound, "object_key");
            DispatchOp(env, d, host, bound, grant).Some?
            <==> && OnHost(d, host) && key in d.slots && Free(d.slots[key], bound, "BOUND")
                 && d.slots[key].startup == Some(grant.startup) && ValidGrant(env, grant)
                 && grant.transaction == Get(bound, "transaction") && grant.code == Get(bound, "code_digest")
                 && grant.policy == Get(bound, "policy_digest")
                 && grant.authorityId == d.authorityId && grant.epoch == d.epoch
  {
    hide Valid, Hex, RecordOk, ValidStartup, ValidGrant;
    var key := Get(bound, "object_key");
    if key in d.slots { ValidSlot(env, d, key); }
  }

  lemma {:induction false} FinishGuard(env: Env, d: Ledger, host: Host, bound: Record, proof: Proof, fixture: bool)
    requires Valid(env, d, 1)
    ensures var key := Get(bound, "object_key");
            && (FinishOp(env, d, host, bound, proof, fixture).Some?
                <==> && OnHost(d, host) && d.schema == 2 && (proof.origin == RUNTIME_COLLECTED || fixture) && ValidProof(env, proof)
                     && key in d.slots && Dispatched(d.slots[key], bound) && Proves(d, d.slots[key], proof))
            && (FinishOp(env, d, host, bound, proof, fixture).Some? ==>
                  && EvidenceFrom(env, bound, proof, d.authorityId, d.slots[key].dispatch.value)
                     == Some(Evidence(bound, 1, 1, 1, 1, "SUCCESS"))
                  && FinishRecord(env, bound, Evidence(bound, 1, 1, 1, 1, "SUCCESS"))
                     == Some(bound["state" := "TERMINAL"]["executor_result" := "SUCCESS"]))
  {
    hide Valid, Hex, RecordOk, ValidStartup, ValidGrant, ValidProof;
    var key := Get(bound, "object_key");
    if key in d.slots { ValidSlot(env, d, key); }
  }

  function Moved(d: Ledger, key: string, slot: Slot): Ledger {
    d.(revision := d.revision + 1, slots := d.slots[key := slot])
  }

  class LedgerFile {
    const env: Env
    var data: Ledger

    constructor (env: Env, data: Ledger)
      ensures this.env == env && this.data == data
    {
      this.env, this.data := env, data;
    }

    /** transaction: an invalid ledger is refused, and so is an invalid successor. */
    method Transaction(updated: Option<Ledger>) returns (ok: bool)
      modifies this
      ensures ok <==> updated.Some? && Valid(env, old(data), 1) && Valid(env, Next(updated.value), 1)
      ensures data == if ok then Next(updated.value) else old(data)
    {
      hide Valid;
      if !Valid(env, data, 1) || updated == None { return false; }
      var next := Stored(env, updated.value);
      if next == None { return false; }
      data := next.value;
      return true;
    }

    method Reserve(host: Host, requested: Record) returns (ok: bool)
      modifies this
      ensures ok <==> Valid(env, old(data), 1) && ReserveOp(env, old(data), host, requested).Some?
      ensures data == if ok then Next(ReserveOp(env, old(data), host, requested).value) else old(data)
      ensures ok ==> Valid(env, data, 1)
      ensures var key, attempt := Get(requested, "object_key"), Get(requested, "attempt");
              && (ok <==> && Valid(env, old(data), 1) && RecordOk(env, requested) && Get(requested, "state") == "RESERVED"
                          && key == env.volumeKey(Get(requested, "vg_uuid"), Get(requested, "volume"))
                          && OnHost(old(data), host) && Get(requested, "node") == host.node
                          && Get(requested, "boot_id") == host.bootId && Get(requested, "enrollment_epoch") == old(data).epoch
                          && key !in old(data).slots && attempt !in old(data).consumed)
              && (ok ==> data == old(data).(revision := old(data).revision + 1, consumed := old(data).consumed + [attempt],
                                            slots := old(data).slots[key := Slot(requested, None, None, None, None, None)]))
    {
      hide Valid, RecordOk;
      var updated := None;
      var key, attempt := Get(requested, "object_key"), Get(requested, "attempt");
      if key == env.volumeKey(Get(requested, "vg_uuid"), Get(requested, "volume")) {
        if Continuity(data, host) && Get(requested, "node") == data.node && Get(requested, "boot_id") == data.bootId
           && Get(requested, "enrollment_epoch") == data.epoch {
          var existing := if key in data.slots then Some(data.slots[key].record) else None;
          if MayReserve(env, requested, existing, true, attempt !in data.consumed) {
            updated := Some(data.(consumed := data.consumed + [attempt],
                                  slots := data.slots[key := Slot(requested, None, None, None, None, None)]));
          }
        }
      }
      if Valid(env, data, 1) && updated.Some? { ReserveIsStored(env, data, host, requested); }
      ok := Transaction(updated);
    }

    method IssueLaunch(host: Host, expected: Record, command: string) returns (ok: bool)
      modifies this
      ensures ok <==> Valid(env, old(data), 1) && LaunchOp(old(data), host, expected, command).Some? && Hex(command, 64)
      ensures data == if ok then Next(LaunchOp(old(data), host, expected, command).value) else old(data)
      ensures ok ==> Valid(env, data, 1)
      ensures var key := Get(expected, "object_key");
              && (ok <==> && Valid(env, old(data), 1) && Hex(command, 64) && OnHost(old(data), host)
                          && key in old(data).slots && Free(old(data).slots[key], expected, "RESERVED")
                          && old(data).slots[key].launch == None)
              && (ok ==> data == Moved(old(data), key, old(data).slots[key].(launch :=
                     Some(Launch(Get(expected, "attempt"), Get(expected, "unit"), Get(expected, "boot_id"), command)))))
    {
      hide Valid, Hex;
      var updated := None;
      var key := Get(expected, "object_key");
      if key in data.slots {
        var slot := data.slots[key];
        if slot.record == expected && slot.launch == None && slot.dispatch == None && slot.hold == None
           && Continuity(data, host) && State(expected) == "RESERVED" {
          var launch := Launch(Get(expected, "attempt"), Get(expected, "unit"), Get(expected, "boot_id"), command);
          updated := Some(data.(slots := data.slots[key := slot.(launch := Some(launch))]));
        }
      }
      if Valid(env, data, 1) && updated.Some? { LaunchIsStored(env, data, host, expected, command); }
      ok := Transaction(updated);
    }

    method Bind(host: Host, expected: Record, runner: Startup) returns (ok: bool)
      modifies this
      ensures ok <==> Valid(env, old(data), 1) && BindOp(env, old(data), host, expected, runner).Some?
      ensures data == if ok then Next(BindOp(env, old(data), host, expected, runner).value) else old(data)
      ensures ok ==> Valid(env, data, 1)
      ensures var key := Get(expected, "object_key");
              && (ok <==> && Valid(env, old(data), 1) && OnHost(old(data), host)
                          && key in old(data).slots && Free(old(data).slots[key], expected, "RESERVED")
                          && old(data).slots[key].launch == Some(Launch(runner.attempt, runner.unit, runner.bootId, runner.command))
                          && ValidStartup(env, runner))
              && (ok ==> data == Moved(old(data), key, old(data).slots[key].(
                     record := expected["state" := "BOUND"]["invocation_id" := runner.invocation], startup := Some(runner))))
    {
      hide Valid, Hex, RecordOk, ValidStartup;
      var updated := None;
      var key := Get(expected, "object_key");
      if key in data.slots {
        var slot := data.slots[key];
        if slot.record == expected && slot.launch.Some? && slot.dispatch == None && slot.hold == None
           && Continuity(data, host) && State(expected) == "RESERVED" && ValidStartup(env, runner) {
          var launch := slot.launch.value;
          if runner.attempt == launch.attempt && runner.unit == launch.unit && runner.bootId == launch.bootId
             && runner.command == launch.command {
            var bound := BindRecord(env, expected, expected, runner.invocation, true);
            if bound.Some? {
              updated := Some(data.(slots := data.slots[key := slot.(record := bound.value, startup := Some(runner))]));
            }
          }
        }
      }
      if Valid(env, data, 1) { BindGuard(env, data, host, expected, runner); }
      if Valid(env, data, 1) && updated.Some? { BindIsStored(env, data, host, expected, runner); }
      ok := Transaction(updated);
    }

    method IssueDispatch(host: Host, bound: Record, grant: Grant) returns (ok: bool)
      modifies this
      ensures ok <==> Valid(env, old(data), 1) && DispatchOp(env, old(data), host, bound, grant).Some?
      ensures data == if ok then Next(DispatchOp(env, old(data), host, bound, grant).value) else old(data)
      ensures ok ==> Valid(env, data, 1)
      ensures var key := Get(bound, "object_key");
              && (ok <==> && Valid(env, old(data), 1) && OnHost(old(data), host)
                          && key in old(data).slots && Free(old(data).slots[key], bound, "BOUND")
                          && old(data).slots[key].startup == Some(grant.startup) && ValidGrant(env, grant)
                          && grant.transaction == Get(bound, "transaction") && grant.code == Get(bound, "code_digest")
                          && grant.policy == Get(bound, "policy_digest")
                          && grant.authorityId == old(data).authorityId && grant.epoch == old(data).epoch)
              && (ok ==> data == Moved(old(data), key, old(data).slots[key].(dispatch :=
                     Some(Dispatch(grant, grant, old(data).revision + 1)))))
              && (ok ==> key in data.slots && data.slots[key].dispatch.Some?
                         && data.slots[key].dispatch.value.issuedRevision == data.revision)
    {
      hide Valid, RecordOk, ValidGrant, SameIdentity;
      var updated := None;
      var key := Get(bound, "object_key");
      if key in data.slots {
        var slot := data.slots[key];
        if slot.record == bound && slot.launch.Some? && slot.dispatch == None && slot.hold == None
           && Continuity(data, host) && State(bound) == "BOUND" && ValidGrant(env, grant) {
          var s := grant.startup;
          if s.attempt == Get(bound, "attempt") && grant.transaction == Get(bound, "transaction") && s.unit == Get(bound, "unit")
             && s.invocation == Get(bound, "invocation_id") && s.bootId == Get(bound, "boot_id")
             && grant.code == Get(bound, "code_digest") && grant.policy == Get(bound, "policy_digest")
             && grant.authorityId == data.authorityId && grant.epoch == data.epoch && grant.epoch == Get(bound, "enrollment_epoch")
             && slot.startup == Some(s) && MayDispatch(env, bound, bound, true) {
            updated := Some(data.(slots := data.slots[key := slot.(dispatch := Some(Dispatch(grant, grant, data.revision + 1)))]));
          }
        }
      }
      if Valid(env, data, 1) { DispatchGuard(env, data, host, bound, grant); }
      if Valid(env, data, 1) && updated.Some? { DispatchIsStored(env, data, host, bound, grant); }
      ok := Transaction(updated);
    }

    method FinishExact(host: Host, bound: Record, proof: Proof, fixture: bool) returns (ok: bool)
      modifies this
      ensures ok <==> Valid(env, old(data), 1) && FinishOp(env, old(data), host, bound, proof, fixture).Some?
      ensures data == if ok then Next(FinishOp(env, old(data), host, bound, proof, fixture).value) else old(data)
      ensures ok ==> Valid(env, data, 1)
      ensures var key := Get(bound, "object_key");
              && (ok <==> && Valid(env, old(data), 1) && OnHost(old(data), host) && old(data).schema == 2
                          && (proof.origin == RUNTIME_COLLECTED || fixture) && ValidProof(env, proof)
                          && key in old(data).slots && Dispatched(old(data).slots[key], bound)
                          && Proves(old(data), old(data).slots[key], proof))
              && (ok ==> data == Moved(old(data), key, old(data).slots[key].(
                     record := bound["state" := "TERMINAL"]["executor_result" := "SUCCESS"],
                     finish := Some(Finish(proof, proof, Evidence(bound, 1, 1, 1, 1, "SUCCESS"),
                                           Evidence(bound, 1, 1, 1, 1, "SUCCESS"), old(data).revision + 1)))))
              && (ok ==> key in data.slots && data.slots[key].finish.Some?
                         && data.slots[key].finish.value.observedRevision == data.revision)
    {
      hide Valid, RecordOk, ValidProof, EvidenceFrom, FinishRecord;
      var updated := None;
      var key := Get(bound, "object_key");
      if ValidProof(env, proof) && data.schema == 2 && (proof.origin == RUNTIME_COLLECTED || fixture) && key in data.slots {
        var slot := data.slots[key];
        if slot.record == bound && slot.dispatch.Some? && slot.finish == None && slot.hold == None
           && Continuity(data, host) && State(bound) == "BOUND" {
          var evidence := EvidenceFrom(env, bound, proof, data.authorityId, slot.dispatch.value);
          if evidence.Some? {
            var record := FinishRecord(env, bound, evidence.value);
            if record.Some? {
              var finish := Finish(proof, proof, evidence.value, evidence.value, data.revision + 1);
              updated := Some(data.(slots := data.slots[key := slot.(record := record.value, finish := Some(finish))]));
            }
          }
        }
      }
      if Valid(env, data, 1) { FinishGuard(env, data, host, bound, proof, fixture); }
      if Valid(env, data, 1) && updated.Some? { FinishIsStored(env, data, host, bound, proof, fixture); }
      ok := Transaction(updated);
    }
  }

  const ANY := Env((v, w) => Zeros(24), (field, text) => true)

  function ExampleRunner(): Startup {
    Startup(Zeros(32), UnitOf(Zeros(32)), Zeros(32), "b", Zeros(32), 1, 2, Zeros(64), Zeros(64),
            "/system.slice/" + UnitOf(Zeros(32)), Zeros(64))
  }

  function ExampleGrant(): Grant {
    Grant(Zeros(32), Zeros(64), Zeros(32), Zeros(64), Zeros(64), ExampleRunner())
  }

  function ExampleProof(): Proof {
    var marker := Marker(Zeros(32), Zeros(32), Zeros(32), ExampleGrant(), Zeros(64));
    Proof(RUNTIME_COLLECTED,
          Identity(Zeros(32), Zeros(64), Zeros(24), Zeros(32), Zeros(32), UnitOf(Zeros(32)), Zeros(32), "b"),
          ExampleGrant(), Zeros(64), marker, marker, Zeros(64), Zeros(32), 1, 2)
  }

  function BoundExample(): Record {
    Example()["state" := "BOUND"]["invocation_id" := Zeros(32)]
  }

  /** The example's ledger with its one slot. */
  function Holding(revision: int, slot: Slot): Ledger {
    Ledger(2, revision, Zeros(32), "n", "b", Zeros(64), [Zeros(32)], map[Zeros(24) := slot])
  }

  const LAUNCHED := Launch(Zeros(32), UnitOf(Zeros(32)), "b", Zeros(64))

  /** An attempt in a ledger of its own: reserved, launched and bound. */
  method StartedAttempt() returns (file: LedgerFile)
    ensures fresh(file) && file.env == ANY && Valid(ANY, file.data, 1)
    ensures file.data == Holding(4, Slot(BoundExample(), Some(LAUNCHED), Some(ExampleRunner()), None, None, None))
  {
    hide Valid, RecordOk, Hex, Zeros, Example, UnitOf, ValidStartup, Get;
    var host, reserved := Host("n", "b"), Example();
    ExampleFields();
    ExampleIsReserved(ANY);
    ExampleIsWellFormed();
    file := new LedgerFile(ANY, Ledger(2, 1, Zeros(32), "n", "b", Zeros(64), [], map[]));
    EmptyIsValid(ANY, file.data);
    var ok := file.Reserve(host, reserved);
    assert ok && file.data == Holding(2, Slot(reserved, None, None, None, None, None));
    ok := file.IssueLaunch(host, reserved, Zeros(64));
    assert ok && file.data == Holding(3, Slot(reserved, Some(LAUNCHED), None, None, None, None));
    ok := file.Bind(host, reserved, ExampleRunner());
    assert ok;
  }

  /** And then dispatched at revision 5 and finished at revision 6. */
  method WorkedAttempt() returns (file: LedgerFile)
    ensures var evidence := Evidence(BoundExample(), 1, 1, 1, 1, "SUCCESS");
            file.data == Holding(6, Slot(
              BoundExample()["state" := "TERMINAL"]["executor_result" := "SUCCESS"], Some(LAUNCHED), Some(ExampleRunner()),
              Some(Dispatch(ExampleGrant(), ExampleGrant(), 5)),
              Some(Finish(ExampleProof(), ExampleProof(), evidence, evidence, 6)), None))
  {
    hide Valid, RecordOk, Hex, Zeros, BoundExample, UnitOf, ValidStartup, ValidGrant, ValidProof, Get;
    file := StartedAttempt();
    var host, bound := Host("n", "b"), BoundExample();
    BoundFields();
    ExampleIsWellFormed();
    var ok := file.IssueDispatch(host, bound, ExampleGrant());
    assert ok && file.data == Holding(5, Slot(bound, Some(LAUNCHED), Some(ExampleRunner()),
                                              Some(Dispatch(ExampleGrant(), ExampleGrant(), 5)), None, None));
    ok := file.FinishExact(host, bound, ExampleProof(), false);
    assert ok;
  }

  lemma {:induction false} EmptyIsValid(env: Env, d: Ledger)
    requires d == Ledger(2, 1, Zeros(32), "n", "b", Zeros(64), [], map[]) && forall field, text :: env.shaped(field, text)
    ensures Valid(env, d, 1)
  {
    hide Hex, Zeros;
  }

  lemma {:induction false} ExampleIsWellFormed()
    ensures ValidStartup(ANY, ExampleRunner()) && ValidGrant(ANY, ExampleGrant()) && ValidProof(ANY, ExampleProof())
  {
    hide Hex, Zeros, UnitOf;
  }

  lemma {:induction false} BoundFields()
    ensures var r := BoundExample();
            && Get(r, "state") == "BOUND" && Get(r, "invocation_id") == Zeros(32) && Get(r, "object_key") == Zeros(24)
            && Get(r, "attempt") == Get(r, "transaction") == Zeros(32) && Get(r, "boot_id") == "b"
            && Get(r, "enrollment_epoch") == Get(r, "code_digest") == Get(r, "policy_digest") == Zeros(64)
            && Get(r, "unit") == UnitOf(Zeros(32))
  {
    hide Zeros, Example, UnitOf;
    ExampleFields();
  }

  // ----- what a valid ledger says -----

  /** In the ledger's own terms: who it belongs to, and the attempts it has spent. */
  lemma {:induction false} ValidHeaderSays(env: Env, d: Ledger)
    requires Valid(env, d, 1)
    ensures d.schema in {1, 2} && d.revision >= 1 && Hex(d.authorityId, 32) && Hex(d.epoch, 64)
    ensures env.shaped("authority_node", d.node) && env.shaped("boot_id", d.bootId)
    ensures forall i | 0 <= i < |d.consumed| :: Hex(d.consumed[i], 32)
    ensures forall i, k | 0 <= i < k < |d.consumed| :: d.consumed[i] != d.consumed[k]
    ensures forall k, l | k in d.slots && l in d.slots && k != l ::
              Get(d.slots[k].record, "attempt") != Get(d.slots[l].record, "attempt")
  {
    hide SlotOk, Hex;
  }

  /** Every slot holds a record of the ledger's own host and epoch, in its own place. */
  lemma {:induction false} ValidRecordSays(env: Env, d: Ledger, key: string)
    requires Valid(env, d, 1) && key in d.slots
    ensures var r := d.slots[key].record;
            && Get(r, "object_key") == key == env.volumeKey(Get(r, "vg_uuid"), Get(r, "volume")) && Hex(key, 24)
            && Get(r, "attempt") in d.consumed && Hex(Get(r, "attempt"), 32) && Hex(Get(r, "transaction"), 32)
            && Get(r, "node") == d.node && Get(r, "boot_id") == d.bootId && Get(r, "enrollment_epoch") == d.epoch
            && Get(r, "schema") == "1" && Get(r, "kind") == "THICK_EXECUTOR_LAB"
            && Get(r, "unit") == "slt-thick-lab-exec-" + Get(r, "attempt") + ".service"
            && Hex(Get(r, "code_digest"), 64) && Hex(Get(r, "policy_digest"), 64)
            && (Get(r, "state") == "RESERVED" ==> "invocation_id" !in r)
            && (Get(r, "state") != "RESERVED" ==> Hex(Get(r, "invocation_id"), 32))
            && ("executor_result" in r <==> Get(r, "state") == "TERMINAL")
            && d.slots[key].hold != Some("")
  {
    hide Valid, Hex, LaunchOk, StartupOk, DispatchOk, FinishOk;
    ValidSlot(env, d, key);
  }

  /** A slot is reserved, perhaps launched; or launched, started and bound, perhaps
      dispatched; or dispatched and finished with success.  No valid ledger has a slot
      in any other state, UNKNOWN included. */
  lemma {:induction false} ValidSlotSays(env: Env, d: Ledger, key: string)
    requires Valid(env, d, 1) && key in d.slots
    ensures var slot := d.slots[key];
            var state := Get(slot.record, "state");
            || (state == "RESERVED" && slot.startup == None && slot.dispatch == None && slot.finish == None)
            || (state == "BOUND" && slot.launch.Some? && slot.startup.Some? && slot.finish == None)
            || (state == "TERMINAL" && slot.launch.Some? && slot.startup.Some? && slot.dispatch.Some? && slot.finish.Some?
                && Get(slot.record, "executor_result") == "SUCCESS" && d.schema == 2)
  {
    hide Valid, Hex, ValidProof, LaunchOk, StartupOk, DispatchOk;
    ValidSlot(env, d, key);
  }

  /** The launch, the startup, the grant and the finish of a slot are all of its
      record's attempt, and each is bound to the ones before it. */
  lemma {:induction false} ValidHistorySays(env: Env, d: Ledger, key: string)
    requires Valid(env, d, 1) && key in d.slots
    ensures var slot := d.slots[key];
            var r := slot.record;
            && (slot.launch.Some? ==>
                  && slot.launch.value.attempt == Get(r, "attempt") && slot.launch.value.unit == Get(r, "unit")
                  && slot.launch.value.bootId == Get(r, "boot_id") && Hex(slot.launch.value.command, 64))
            && (slot.startup.Some? ==>
                  && var s := slot.startup.value;
                     s.attempt == Get(r, "attempt") && s.unit == Get(r, "unit") && s.bootId == Get(r, "boot_id")
                     && s.invocation == Get(r, "invocation_id") && slot.launch.Some? && s.command == slot.launch.value.command
                     && s.controlGroup == "/system.slice/" + s.unit && s.pid >= 1 && s.ticks >= 1
                     && Hex(s.nonce, 32) && Hex(s.runner, 64) && Hex(s.operation, 64))
            && (slot.dispatch.Some? ==>
                  && var x := slot.dispatch.value;
                     x.sealed == x.grant && 1 <= x.issuedRevision <= d.revision
                     && slot.startup == Some(x.grant.startup)
                     && x.grant.authorityId == d.authorityId && x.grant.epoch == d.epoch
                     && x.grant.transaction == Get(r, "transaction")
                     && x.grant.code == Get(r, "code_digest") && x.grant.policy == Get(r, "policy_digest"))
  {
    hide Valid, Hex, FinishOk, SameIdentity;
    ValidSlot(env, d, key);
  }

  /** A finish comes after the dispatch, and its proof is of the dispatched grant, the
      very process that was started and the record as it was bound. */
  lemma {:induction false} ValidFinishSays(env: Env, d: Ledger, key: string)
    requires Valid(env, d, 1) && key in d.slots && d.slots[key].finish.Some?
    ensures var slot, f := d.slots[key], d.slots[key].finish.value;
            var r := slot.record;
            && slot.dispatch.Some? && slot.dispatch.value.issuedRevision < f.observedRevision <= d.revision
            && f.proofSeal == f.proof && f.evidenceSeal == f.evidence
            && f.proof.grant == slot.dispatch.value.grant && f.proof.markerSeal == f.proof.marker
            && f.proof.marker.grant == f.proof.grant
            && f.proof.pid == slot.dispatch.value.grant.startup.pid && f.proof.ticks == slot.dispatch.value.grant.startup.ticks
            && f.proof.invocation == Get(r, "invocation_id") == f.proof.identity.invocation
            && f.proof.identity.attempt == Get(r, "attempt") && f.proof.identity.objectKey == key
            && f.evidence == Evidence(r["state" := "BOUND"] - {"executor_result"}, 1, 1, 1, 1, "SUCCESS")
  {
    hide Valid, Hex, RecordOk, ValidStartup, ValidGrant, SameIdentity;
    ValidSlotSays(env, d, key);
    ValidHistorySays(env, d, key);
    ValidSlot(env, d, key);
    var r := d.slots[key].record;
    assert forall field | field !in {"state", "executor_result"} :: Get(Rebound(r), field) == Get(r, field);
  }

  // ----- whole runs -----

  datatype Op =
    | OpReserve(host: Host, requested: Record)
    | OpLaunch(host: Host, expected: Record, command: string)
    | OpBind(host: Host, expected: Record, runner: Startup)
    | OpDispatch(host: Host, expected: Record, grant: Grant)
    | OpFinish(host: Host, expected: Record, proof: Proof, fixture: bool)

  function Attempted(env: Env, d: Ledger, op: Op): Option<Ledger> {
    match op
    case OpReserve(host, requested) => ReserveOp(env, d, host, requested)
    case OpLaunch(host, expected, command) => LaunchOp(d, host, expected, command)
    case OpBind(host, expected, runner) => BindOp(env, d, host, expected, runner)
    case OpDispatch(host, expected, grant) => DispatchOp(env, d, host, expected, grant)
    case OpFinish(host, expected, proof, fixture) => FinishOp(env, d, host, expected, proof, fixture)
  }

  /** One transaction: refused, or cut before its rename, or stored. */
  ghost predicate IsStep(env: Env, d: Ledger, e: Ledger) {
    e == d || exists op :: Attempted(env, d, op).Some? && Stored(env, Attempted(env, d, op).value) == Some(e)
  }

  ghost predicate IsRun(env: Env, states: seq<Ledger>) {
    && |states| > 0 && Valid(env, states[0], 1)
    && forall i | 0 <= i < |states| - 1 :: IsStep(env, states[i], states[i + 1])
  }

  /** Slots are never freed, keep their attempt, and a dispatch once issued stays. */
  ghost predicate Carried(d: Ledger, e: Ledger) {
    forall key | key in d.slots ::
      && key in e.slots && Get(e.slots[key].record, "attempt") == Get(d.slots[key].record, "attempt")
      && (d.slots[key].dispatch.Some? ==> e.slots[key].dispatch == d.slots[key].dispatch)
  }

  lemma {:induction false} OpCarries(env: Env, d: Ledger, op: Op)
    requires Attempted(env, d, op).Some?
    ensures Carried(d, Attempted(env, d, op).value)
  {
    hide RecordOk, Hex, ValidStartup, ValidGrant, ValidProof, EvidenceFrom, SameIdentity;
  }

  lemma {:induction false} RunCarries(env: Env, states: seq<Ledger>, i: nat, j: nat)
    requires IsRun(env, states) && i <= j < |states|
    ensures Carried(states[i], states[j]) && Valid(env, states[j], 1)
    decreases j
  {
    hide Valid, Attempted;
    if j > 0 {
      RunCarries(env, states, if i < j then i else j - 1, j - 1);
      assert IsStep(env, states[j - 1], states[j]);
      if states[j] != states[j - 1] {
        var op :| Attempted(env, states[j - 1], op).Some? && Stored(env, Attempted(env, states[j - 1], op).value) == Some(states[j]);
        OpCarries(env, states[j - 1], op);
      }
    }
  }

  /** An attempt is granted one dispatch in all: after the first, every further
      request for it is refused, in every later state. */
  lemma {:induction false} DispatchedOnce(env: Env, states: seq<Ledger>, i: nat, k: nat, host: Host, bound: Record, grant: Grant,
                       later: Host, again: Record, other: Grant)
    requires IsRun(env, states) && i < k < |states|
    requires DispatchOp(env, states[i], host, bound, grant).Some?
    requires states[i + 1] == Next(DispatchOp(env, states[i], host, bound, grant).value)
    requires Get(again, "attempt") == Get(bound, "attempt")
    ensures DispatchOp(env, states[k], later, again, other) == None
  {
    hide IsRun, Valid, DispatchOp, Next;
    RunCarries(env, states, i + 1, k);
    DispatchLeaves(env, states[i], host, bound, grant);
    DispatchTaken(env, states[k], later, Get(bound, "object_key"), again, other);
  }

  lemma {:induction false} DispatchLeaves(env: Env, d: Ledger, host: Host, bound: Record, grant: Grant)
    requires DispatchOp(env, d, host, bound, grant).Some?
    ensures var e, key := Next(DispatchOp(env, d, host, bound, grant).value), Get(bound, "object_key");
            key in e.slots && e.slots[key].record == bound && e.slots[key].dispatch.Some?
  {
    hide ValidGrant, MayDispatch, Get;
  }

  lemma {:induction false} DispatchTaken(env: Env, d: Ledger, host: Host, key: string, bound: Record, grant: Grant)
    requires Valid(env, d, 1) && key in d.slots && d.slots[key].dispatch.Some?
    requires Get(d.slots[key].record, "attempt") == Get(bound, "attempt")
    ensures DispatchOp(env, d, host, bound, grant) == None
  {
    hide HeaderOk, SlotOk, ValidGrant, MayDispatch, Get;
    var claimed := Get(bound, "object_key");
    if claimed in d.slots && d.slots[claimed].record == bound { assert claimed == key; }
  }
}
