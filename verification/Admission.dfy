/** The compare-and-swap slots of the executor admission ledger and their attempt
    tombstones (executor-admission-lab.py). */
module Admission {
  import opened Common

  datatype Ledger = Ledger(revision: int, consumed: seq<string>, slots: map<string, Record>)

  datatype Op =
    | Reserve(record: Record)
    | Bind(expected: Record, invocation: string)
    | Transition(expected: Record, state: string, result: string, proven: bool)
    | Close(expected: Record)

  datatype Reply = Allowed | Blocked | Raised

  const STATES := {"RESERVED", "BOUND", "TERMINAL", "UNKNOWN"}
  const INITIAL := Ledger(1, [], map[])

  /** What _load demands of the stored ledger. */
  predicate Loadable(d: Ledger) {
    && d.revision >= 1
    && (forall i, j | 0 <= i < j < |d.consumed| :: d.consumed[i] != d.consumed[j])
    && (forall a | a in d.consumed :: Hex(a, 32))
    && forall key | key in d.slots ::
         && Hex(key, 24) && Get(d.slots[key], "object_key") == key
         && Get(d.slots[key], "attempt") in d.consumed && Get(d.slots[key], "state") in STATES
  }

  /** What _load does not look for, and the protocol keeps all the same. */
  predicate Exclusive(d: Ledger) {
    forall k, l | k in d.slots && l in d.slots && Get(d.slots[k], "attempt") == Get(d.slots[l], "attempt") :: k == l
  }

  function Stored(d: Ledger, slots: map<string, Record>): Ledger {
    d.(revision := d.revision + 1, slots := slots)
  }

  predicate Holds(d: Ledger, expected: Record, state: string) {
    var key := Get(expected, "object_key");
    key in d.slots && d.slots[key] == expected && Get(expected, "state") == state
  }

  /** The ledger after an operation, and what its caller is told. */
  function Apply(d: Ledger, op: Op): (Ledger, Reply) {
    match op
    case Reserve(record) =>
      var key, attempt := Get(record, "object_key"), Get(record, "attempt");
      if !Hex(key, 24) || !Hex(attempt, 32) then (d, Raised)
      else if key in d.slots || attempt in d.consumed then (d, Blocked)
      else (Stored(d, d.slots[key := record["state" := "RESERVED"]]).(consumed := d.consumed + [attempt]), Allowed)
    case Bind(expected, invocation) =>
      var key := Get(expected, "object_key");
      if !Hex(key, 24) then (d, Raised)
      else if !Holds(d, expected, "RESERVED") then (d, Blocked)
      else if !Hex(invocation, 32) then (d, Raised)
      else (Stored(d, d.slots[key := expected["state" := "BOUND"]["invocation_id" := invocation]]), Allowed)
    case Transition(expected, state, result, proven) =>
      var key := Get(expected, "object_key");
      if state !in {"TERMINAL", "UNKNOWN"} || !Hex(key, 24) then (d, Raised)
      else if !Holds(d, expected, "BOUND") then (d, Blocked)
      else if state == "UNKNOWN" then (Stored(d, d.slots[key := expected["state" := state]]), Allowed)
      else if !proven || result !in {"SUCCESS", "FAILED"} then (d, Raised)
      else (Stored(d, d.slots[key := expected["state" := state]["executor_result" := result]]), Allowed)
    case Close(expected) =>
      var key := Get(expected, "object_key");
      if !Hex(key, 24) then (d, Raised)
      else if !Holds(d, expected, "TERMINAL") then (d, Blocked)
      else (Stored(d, d.slots - {key}), Allowed)
  }

  /** A transaction is cut before its rename or after it. */
  datatype Fault = Completed | CutBefore | CutAfter

  class Backend {
    var revision: int
    var consumed: seq<string>
    var slots: map<string, Record>

    ghost function State(): Ledger
      reads this
    {
      Ledger(revision, consumed, slots)
    }

    constructor ()
      ensures State() == INITIAL
    {
      revision, consumed, slots := 1, [], map[];
    }

    ghost predicate Unchanged(before: Ledger)
      reads this
    {
      revision == before.revision && consumed == before.consumed && slots == before.slots
    }

    /** One revision on, with the given slots and the attempts added. */
    ghost predicate Becomes(before: Ledger, slots: map<string, Record>, attempts: seq<string>)
      reads this
    {
      revision == before.revision + 1 && consumed == before.consumed + attempts && this.slots == slots
    }

    method Store(slots: map<string, Record>, consumed: seq<string>, fault: Fault)
      modifies this
      ensures State() == if fault == CutBefore then old(State()) else Ledger(old(revision) + 1, consumed, slots)
    {
      if fault == CutBefore { return; }
      this.slots, this.consumed, this.revision := slots, consumed, revision + 1;
    }

    method DoReserve(record: Record, fault: Fault) returns (r: Reply)
      modifies this
      ensures r == Apply(old(State()), Reserve(record)).1
      ensures State() == if fault == CutBefore then old(State()) else Apply(old(State()), Reserve(record)).0
      ensures var key, attempt := Get(record, "object_key"), Get(record, "attempt");
              && (r == Raised <==> !Hex(key, 24) || !Hex(attempt, 32))
              && (r == Allowed <==> Hex(key, 24) && Hex(attempt, 32) && key !in old(slots) && attempt !in old(consumed))
              && (if r != Allowed || fault == CutBefore then Unchanged(old(State()))
                  else Becomes(old(State()), old(slots)[key := record["state" := "RESERVED"]], [attempt]))
    {
      var key := Get(record, "object_key");
      if !Hex(key, 24) { return Raised; }
      var attempt := Get(record, "attempt");
      if !Hex(attempt, 32) { return Raised; }
      if key in slots { return Blocked; }
      if attempt in consumed { return Blocked; }
      var candidate := record["state" := "RESERVED"];
      Store(slots[key := candidate], consumed + [attempt], fault);
      return Allowed;
    }

    method DoBind(expected: Record, invocation: string, fault: Fault) returns (r: Reply)
      modifies this
      ensures r == Apply(old(State()), Bind(expected, invocation)).1
      ensures State() == if fault == CutBefore then old(State()) else Apply(old(State()), Bind(expected, invocation)).0
      ensures var key := Get(expected, "object_key");
              && (r == Allowed <==> && Hex(key, 24) && Hex(invocation, 32) && key in old(slots) && old(slots)[key] == expected
                                    && Get(expected, "state") == "RESERVED")
              && (if r != Allowed || fault == CutBefore then Unchanged(old(State()))
                  else Becomes(old(State()),
                               old(slots)[key := expected["state" := "BOUND"]["invocation_id" := invocation]], []))
    {
      var key := Get(expected, "object_key");
      if !Hex(key, 24) { return Raised; }
      if key !in slots || slots[key] != expected || Get(slots[key], "state") != "RESERVED" { return Blocked; }
      if !Hex(invocation, 32) { return Raised; }
      Store(slots[key := slots[key]["state" := "BOUND"]["invocation_id" := invocation]], consumed, fault);
      return Allowed;
    }

    method DoTransition(expected: Record, state: string, result: string, proven: bool, fault: Fault) returns (r: Reply)
      modifies this
      ensures r == Apply(old(State()), Transition(expected, state, result, proven)).1
      ensures State() == if fault == CutBefore then old(State())
                         else Apply(old(State()), Transition(expected, state, result, proven)).0
      ensures var key := Get(expected, "object_key");
              && (r == Allowed <==> && Hex(key, 24) && key in old(slots) && old(slots)[key] == expected
                                    && Get(expected, "state") == "BOUND"
                                    && (state == "UNKNOWN" || (state == "TERMINAL" && proven && result in {"SUCCESS", "FAILED"})))
              && (if r != Allowed || fault == CutBefore then Unchanged(old(State()))
                  else if state == "TERMINAL" then
                    Becomes(old(State()),
                            old(slots)[key := expected["state" := "TERMINAL"]["executor_result" := result]], [])
                  else Becomes(old(State()), old(slots)[key := expected["state" := "UNKNOWN"]], []))
    {
      if state != "TERMINAL" && state != "UNKNOWN" { return Raised; }
      var key := Get(expected, "object_key");
      if !Hex(key, 24) { return Raised; }
      if key !in slots || slots[key] != expected || Get(slots[key], "state") != "BOUND" { return Blocked; }
      var next := slots[key]["state" := state];
      if state == "TERMINAL" {
        if !proven { return Raised; }
        if result != "SUCCESS" && result != "FAILED" { return Raised; }
        next := next["executor_result" := result];
      }
      Store(slots[key := next], consumed, fault);
      return Allowed;
    }

    method DoClose(expected: Record, fault: Fault) returns (r: Reply)
      modifies this
      ensures r == Apply(old(State()), Close(expected)).1
      ensures State() == if fault == CutBefore then old(State()) else Apply(old(State()), Close(expected)).0
      ensures var key := Get(expected, "object_key");
              && (r == Allowed <==> && Hex(key, 24) && key in old(slots) && old(slots)[key] == expected
                                    && Get(expected, "state") == "TERMINAL")
              && (if r != Allowed || fault == CutBefore then Unchanged(old(State()))
                  else Becomes(old(State()), map k | k in old(slots) && k != key :: old(slots)[k], []))
    {
      var key := Get(expected, "object_key");
      if !Hex(key, 24) { return Raised; }
      if key !in slots || slots[key] != expected || Get(slots[key], "state") != "TERMINAL" { return Blocked; }
      Store(slots - {key}, consumed, fault);
      return Allowed;
    }
  }

  // ----- one operation -----

  predicate Sound(d: Ledger) {
    Loadable(d) && Exclusive(d)
  }

  function Rank(r: Record): nat {
    if Get(r, "state") == "RESERVED" then 0 else if Get(r, "state") == "BOUND" then 1 else 2
  }

  /** What can have become, by a later state e, of the attempts known in d: an
      attempt is forgotten by no ledger; one that is in a slot in e was in that very
      slot in d, no further along; and at the same rank it is the same record. */
  ghost predicate Since(d: Ledger, e: Ledger) {
    && d.consumed <= e.consumed && d.revision <= e.revision
    && forall key | key in e.slots && Get(e.slots[key], "attempt") in d.consumed :: KeptSince(d, e, key)
  }

  ghost predicate KeptSince(d: Ledger, e: Ledger, key: string)
    requires key in e.slots
  {
    && key in d.slots && Get(d.slots[key], "attempt") == Get(e.slots[key], "attempt")
    && Rank(d.slots[key]) <= Rank(e.slots[key])
    && (Rank(d.slots[key]) == Rank(e.slots[key]) ==> d.slots[key] == e.slots[key])
  }

  lemma {:induction false} AddedSlot(d: Ledger, key: string, r: Record)
    requires Sound(d) && key !in d.slots && Get(r, "attempt") !in d.consumed
    requires Hex(key, 24) && Hex(Get(r, "attempt"), 32)
    requires Get(r, "object_key") == key && Get(r, "state") in STATES
    ensures var e := Stored(d, d.slots[key := r]).(consumed := d.consumed + [Get(r, "attempt")]); Sound(e) && Since(d, e)
  {
    hide Hex, Get, Rank;
  }

  lemma {:induction false} ChangedSlot(d: Ledger, key: string, r: Record)
    requires Sound(d) && key in d.slots && Get(r, "attempt") == Get(d.slots[key], "attempt")
    requires Get(r, "object_key") == key && Get(r, "state") in STATES && Rank(d.slots[key]) < Rank(r)
    ensures var e := Stored(d, d.slots[key := r]); Sound(e) && Since(d, e)
  {
    hide Hex, Get, Rank;
  }

  lemma {:induction false} FreedSlot(d: Ledger, key: string)
    requires Sound(d)
    ensures var e := Stored(d, d.slots - {key}); Sound(e) && Since(d, e)
  {
    hide Hex, Get, Rank;
  }

  /** What every operation keeps: the ledger stays loadable, no attempt is in two
      slots, and nothing known becomes anything but a later stage of itself. */
  lemma {:induction false} OpsKeep(d: Ledger, op: Op)
    requires Sound(d)
    ensures Sound(Apply(d, op).0) && Since(d, Apply(d, op).0)
  {
    hide Hex, Sound, Since;
    StaysSince(d);
    if Apply(d, op).1 == Allowed {
      match op
      case Reserve(record) =>
        AddedSlot(d, Get(record, "object_key"), record["state" := "RESERVED"]);
      case Bind(expected, invocation) =>
        ChangedSlot(d, Get(expected, "object_key"), expected["state" := "BOUND"]["invocation_id" := invocation]);
      case Transition(expected, state, result, proven) =>
        var ended := expected["state" := state];
        ChangedSlot(d, Get(expected, "object_key"), if state == "UNKNOWN" then ended else ended["executor_result" := result]);
      case Close(expected) =>
        FreedSlot(d, Get(expected, "object_key"));
    }
  }

  lemma {:induction false} StaysSince(d: Ledger)
    ensures Since(d, d)
  {}

  lemma {:induction false} SinceComposes(a: Ledger, b: Ledger, c: Ledger)
    requires Since(a, b) && Since(b, c)
    ensures Since(a, c)
  {
    forall key | key in c.slots && Get(c.slots[key], "attempt") in a.consumed ensures KeptSince(a, c, key) {
      assert Get(c.slots[key], "attempt") in b.consumed;
      assert KeptSince(b, c, key) && KeptSince(a, b, key);
    }
  }

  // ----- whole runs -----

  /** Any sequence of operations by anyone, each of which may have been cut before
      or after its rename. */
  ghost predicate IsRun(states: seq<Ledger>) {
    && |states| > 0 && states[0] == INITIAL
    && forall i | 0 <= i < |states| - 1 :: IsStep(states[i], states[i + 1])
  }

  ghost predicate IsStep(d: Ledger, e: Ledger) {
    e == d || exists op :: Apply(d, op).0 == e
  }

  /** In every state of every run: the attempts are distinct 32-digit identifiers, each
      slot holds a record of its own key in one of the four states, with an attempt
      that is spent and in no other slot. */
  lemma {:induction false} LedgersStayInOrder(states: seq<Ledger>, i: nat)
    requires IsRun(states) && i < |states|
    ensures var d := states[i];
            && d.revision >= 1
            && (forall a, b | 0 <= a < b < |d.consumed| :: d.consumed[a] != d.consumed[b])
            && (forall a | 0 <= a < |d.consumed| :: Hex(d.consumed[a], 32))
            && (forall key | key in d.slots ::
                  && Hex(key, 24) && Get(d.slots[key], "object_key") == key && Get(d.slots[key], "attempt") in d.consumed
                  && Get(d.slots[key], "state") in {"RESERVED", "BOUND", "TERMINAL", "UNKNOWN"})
            && (forall k, l | k in d.slots && l in d.slots && k != l ::
                  Get(d.slots[k], "attempt") != Get(d.slots[l], "attempt"))
  {
    hide Hex;
    RunIsSound(states, i);
  }

  lemma {:induction false} RunIsSound(states: seq<Ledger>, i: nat)
    requires IsRun(states) && i < |states|
    ensures Sound(states[i])
  {
    if i > 0 {
      RunIsSound(states, i - 1);
      assert IsStep(states[i - 1], states[i]);
      if states[i] != states[i - 1] {
        var op :| Apply(states[i - 1], op).0 == states[i];
        OpsKeep(states[i - 1], op);
      }
    }
  }

  lemma {:induction false} RunIsSince(states: seq<Ledger>, i: nat, j: nat)
    requires IsRun(states) && i <= j < |states|
    ensures Since(states[i], states[j])
    decreases j - i
  {
    if i < j {
      RunIsSince(states, i, j - 1);
      RunIsSound(states, j - 1);
      assert IsStep(states[j - 1], states[j]);
      if states[j] != states[j - 1] {
        var op :| Apply(states[j - 1], op).0 == states[j];
        OpsKeep(states[j - 1], op);
        SinceComposes(states[i], states[j - 1], states[j]);
      }
    }
  }

  /** A record that has left its slot is in no slot ever again. */
  lemma {:induction false} NeverAgain(states: seq<Ledger>, i: nat, j: nat, k: nat, key: string, other: string)
    requires IsRun(states) && i <= j <= k < |states|
    requires key in states[i].slots
    requires key !in states[j].slots || states[j].slots[key] != states[i].slots[key]
    requires other in states[k].slots
    ensures states[k].slots[other] != states[i].slots[key]
  {
    hide IsRun, Sound, Rank;
    RunIsSound(states, i);
    RunIsSince(states, i, j);
    RunIsSince(states, j, k);
    RunIsSince(states, i, k);
    GoneForGood(states[i], states[j], states[k], key, other);
  }

  lemma {:induction false} GoneForGood(d: Ledger, e: Ledger, f: Ledger, key: string, other: string)
    requires Sound(d) && Since(d, e) && Since(e, f) && Since(d, f)
    requires key in d.slots && (key !in e.slots || e.slots[key] != d.slots[key])
    requires other in f.slots
    ensures f.slots[other] != d.slots[key]
  {
    if f.slots[other] == d.slots[key] {
      assert KeptSince(d, f, other);
      StayedThroughout(d, e, f, key);
    }
  }

  lemma {:induction false} StayedThroughout(d: Ledger, e: Ledger, f: Ledger, key: string)
    requires Sound(d) && Since(d, e) && Since(e, f)
    requires key in d.slots && key in f.slots && f.slots[key] == d.slots[key]
    ensures key in e.slots && e.slots[key] == d.slots[key]
  {
    assert Get(f.slots[key], "attempt") in e.consumed;
    assert KeptSince(e, f, key) && KeptSince(d, e, key);
  }

  /** So every operation that still expects it loses, whatever happened in between. */
  lemma {:induction false} StaleOperationsLose(states: seq<Ledger>, i: nat, j: nat, k: nat, key: string, op: Op)
    requires IsRun(states) && i <= j <= k < |states|
    requires key in states[i].slots
    requires key !in states[j].slots || states[j].slots[key] != states[i].slots[key]
    requires !op.Reserve? && op.expected == states[i].slots[key]
    ensures Apply(states[k], op).1 != Allowed && Apply(states[k], op).0 == states[k]
  {
    var other := Get(op.expected, "object_key");
    if other in states[k].slots { NeverAgain(states, i, j, k, key, other); }
  }

  /** An attempt is reserved at most once in a run. */
  lemma {:induction false} ReservedOnce(states: seq<Ledger>, i: nat, k: nat, first: Record, second: Record)
    requires IsRun(states) && i < k < |states|
    requires states[i + 1] == Apply(states[i], Reserve(first)).0 && Apply(states[i], Reserve(first)).1 == Allowed
    requires Get(second, "attempt") == Get(first, "attempt")
    ensures Apply(states[k], Reserve(second)).1 != Allowed
  {
    RunIsSince(states, i + 1, k);
    assert Get(first, "attempt") == states[i + 1].consumed[|states[i].consumed|];
  }

  lemma {:induction false} UnknownStep(d: Ledger, op: Op, key: string)
    requires Sound(d) && key in d.slots && Get(d.slots[key], "state") == "UNKNOWN"
    ensures key in Apply(d, op).0.slots && Apply(d, op).0.slots[key] == d.slots[key]
  {}

  /** A slot whose outcome is unknown is never released, nor changed at all. */
  lemma {:induction false} UnknownIsForever(states: seq<Ledger>, i: nat, k: nat, key: string)
    requires IsRun(states) && i <= k < |states|
    requires key in states[i].slots && Get(states[i].slots[key], "state") == "UNKNOWN"
    ensures key in states[k].slots && states[k].slots[key] == states[i].slots[key]
    decreases k - i
  {
    hide Apply, Sound, Hex;
    if i < k {
      UnknownIsForever(states, i, k - 1, key);
      RunIsSound(states, k - 1);
      assert IsStep(states[k - 1], states[k]);
      if states[k] != states[k - 1] {
        var op :| Apply(states[k - 1], op).0 == states[k];
        UnknownStep(states[k - 1], op, key);
      }
    }
  }
}
