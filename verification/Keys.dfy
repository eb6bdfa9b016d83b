/** The journal's key vocabulary: which names it accepts, how logical records are
    named, and how many names there are (_name, layout-migration-exact-local-journal.py). */
module Keys {
  import opened Common
  import opened RestorePlan
  import opened Records
  import Barrier

  predicate NoColon(s: string) {
    ':' !in s
  }

  function Join(parts: seq<string>): string {
    if parts == [] then "" else if |parts| == 1 then parts[0] else parts[0] + ":" + Join(parts[1..])
  }

  /** Python's split(":"). */
  function Split(s: string): (parts: seq<string>)
    ensures |parts| > 0
  {
    if s == "" then [""]
    else
      var rest := Split(s[1..]);
      if s[0] == ':' then [""] + rest else [[s[0]] + rest[0]] + rest[1..]
  }

  lemma {:induction false} SplitPart(s: string)
    requires NoColon(s)
    ensures Split(s) == [s]
  {
    if s != "" {
      SplitPart(s[1..]);
      assert [s[0]] + s[1..] == s;
    }
  }

  lemma {:induction false} SplitAfter(s: string, rest: string)
    requires NoColon(s)
    ensures Split(s + ":" + rest) == [s] + Split(rest)
  {
    var text := s + ":" + rest;
    if s == "" {
      assert text[1..] == rest;
    } else {
      assert text[1..] == s[1..] + ":" + rest;
      SplitAfter(s[1..], rest);
      assert [s[0]] + s[1..] == s;
    }
  }

  /** Splitting undoes joining. */
  lemma {:induction false} SplitJoin(parts: seq<string>)
    requires |parts| > 0 && forall i | 0 <= i < |parts| :: NoColon(parts[i])
    ensures Split(Join(parts)) == parts
  {
    if |parts| == 1 {
      SplitPart(parts[0]);
    } else {
      SplitJoin(parts[1..]);
      SplitAfter(parts[0], Join(parts[1..]));
    }
  }

  /** At least two digits. */
  function Padded(n: nat): string {
    if n < 10 then ['0', Digit(n)] else Decimal(n)
  }

  function KindName(k: Barrier.Kind): string {
    match k case INTENT_DURABLE => "INTENT_DURABLE" case ATTEMPTED => "ATTEMPTED" case OBSERVED_COMPLETE => "OBSERVED_COMPLETE"
  }

  function OpName(op: Operation): string {
    match op case UNMASK => "UNMASK" case START => "START"
  }

  function PartName(part: Part): string {
    match part case GRANT => "grant" case INTENT => "intent" case DONE => "done"
  }

  function Half(finished: bool): string {
    if finished then "done" else "intent"
  }

  /** The parts of a record's name. */
  function Parts(key: Key): seq<string> {
    match key
    case Started => ["flow", "started"]
    case BaselineKey => ["baseline"]
    case HeldKey => ["flow", "held"]
    case ReleaseKey => ["flow", "release"]
    case CompleteKey => ["flow", "complete"]
    case BarrierKey(index, kind) => ["barrier", Padded(index), KindName(kind)]
    case ArchiveKey(node, finished) => ["archive", node, Half(finished)]
    case EffectKey(step, part) => [step.spot.node, step.spot.unit, OpName(step.op), PartName(part)]
    case ReceiptKey(step) => ["receipt", step.spot.node, step.spot.unit, OpName(step.op)]
    case TransportKey(step, finished) => ["transport", step.spot.node, step.spot.unit, OpName(step.op), Half(finished)]
  }

  function Name(key: Key): string {
    Join(Parts(key))
  }

  /** The names as they are written: these parts, with colons between. */
  lemma {:induction false} PartsAre(node: string, unit: string)
    ensures Parts(BaselineKey) == ["baseline"] && Parts(Started) == ["flow", "started"] && Parts(HeldKey) == ["flow", "held"]
    ensures Parts(ReleaseKey) == ["flow", "release"] && Parts(CompleteKey) == ["flow", "complete"]
    ensures Parts(ArchiveKey(node, false)) == ["archive", node, "intent"]
    ensures Parts(ArchiveKey(node, true)) == ["archive", node, "done"]
    ensures var u, s := Step(Spot(node, unit), UNMASK), Step(Spot(node, unit), START);
            && Parts(EffectKey(u, GRANT)) == [node, unit, "UNMASK", "grant"]
            && Parts(EffectKey(u, INTENT)) == [node, unit, "UNMASK", "intent"]
            && Parts(EffectKey(s, DONE)) == [node, unit, "START", "done"]
            && Parts(ReceiptKey(s)) == ["receipt", node, unit, "START"]
            && Parts(TransportKey(u, false)) == ["transport", node, unit, "UNMASK", "intent"]
            && Parts(TransportKey(u, true)) == ["transport", node, unit, "UNMASK", "done"]
  {}

  lemma {:induction false} BarrierPartsAre(index: nat)
    requires index < 100
    ensures Parts(BarrierKey(index, Barrier.INTENT_DURABLE)) == ["barrier", Padded(index), "INTENT_DURABLE"]
    ensures Parts(BarrierKey(index, Barrier.ATTEMPTED)) == ["barrier", Padded(index), "ATTEMPTED"]
    ensures Parts(BarrierKey(index, Barrier.OBSERVED_COMPLETE)) == ["barrier", Padded(index), "OBSERVED_COMPLETE"]
    ensures |Padded(index)| == 2 && Reading(Padded(index)) == index
  {
    if index < 10 {
      assert Padded(index)[..1] == "0" && "0"[..0] == "";
    } else {
      assert Decimal(index / 10) == [Digit(index / 10)];
      DecimalReads(index);
    }
  }

  lemma {:induction false} Joined2(a: string, b: string)
    ensures Join([a, b]) == a + ":" + b
  {
    assert [a, b][1..] == [b];
  }

  lemma {:induction false} Joined3(a: string, b: string, c: string)
    ensures Join([a, b, c]) == a + ":" + b + ":" + c
  {
    assert [a, b, c][1..] == [b, c];
    Joined2(b, c);
  }

  lemma {:induction false} Joined4(a: string, b: string, c: string, d: string)
    ensures Join([a, b, c, d]) == a + ":" + b + ":" + c + ":" + d
  {
    assert [a, b, c, d][1..] == [b, c, d];
    Joined3(b, c, d);
  }

  lemma {:induction false} Joined5(a: string, b: string, c: string, d: string, e: string)
    ensures Join([a, b, c, d, e]) == a + ":" + b + ":" + c + ":" + d + ":" + e
  {
    assert [a, b, c, d, e][1..] == [b, c, d, e];
    Joined4(b, c, d, e);
  }

  predicate EffectNames(plan: Plan, node: string, unit: string, op: string) {
    IsNode(plan, node) && unit in BarrierMasks(plan.table) && op in {"UNMASK", "START"}
  }

  /** _name: the chain of assignments as it runs, the last word on an effect going
      to the last shape that fits. */
  method Accepts(plan: Plan, key: string) returns (allowed: bool)
    ensures allowed <==> Accepted(plan, Split(key))
  {
    var parts := Split(key);
    assert |parts| == 2 ==> parts == [parts[0], parts[1]];
    allowed := parts in [["baseline"], ["flow", "started"], ["flow", "held"], ["flow", "release"], ["flow", "complete"]];
    if |parts| == 2 && parts[0] == "node-baseline" { allowed := IsNode(plan, parts[1]); }
    if |parts| == 3 && parts[0] == "barrier" {
      allowed := (exists i | 0 <= i < 3 * |plan.participants| :: parts[1] == Padded(i))
                 && parts[2] in {"INTENT_DURABLE", "ATTEMPTED", "OBSERVED_COMPLETE"};
    }
    if |parts| == 3 && parts[0] == "archive" { allowed := IsSanNode(plan, parts[1]) && parts[2] in {"intent", "done"}; }
    var effect: Option<seq<string>> := None;
    if |parts| == 4 && parts[3] in {"grant", "intent", "done"} { effect := Some(parts[..3]); }
    if |parts| == 4 && parts[0] == "receipt" { effect := Some(parts[1..]); }
    if |parts| == 5 && parts[0] == "transport" && parts[4] in {"intent", "done"} { effect := Some(parts[1..4]); }
    if effect.Some? { allowed := EffectNames(plan, effect.value[0], effect.value[1], effect.value[2]); }
  }

  /** The accepted names, shape by shape. */
  predicate Accepted(plan: Plan, parts: seq<string>) {
    || parts == ["baseline"]
    || (|parts| == 2 && parts[0] == "flow" && parts[1] in {"started", "held", "release", "complete"})
    || (|parts| == 2 && parts[0] == "node-baseline" && IsNode(plan, parts[1]))
    || (|parts| == 3 && parts[0] == "barrier" && (exists i | 0 <= i < 3 * |plan.participants| :: parts[1] == Padded(i))
        && parts[2] in {"INTENT_DURABLE", "ATTEMPTED", "OBSERVED_COMPLETE"})
    || (|parts| == 3 && parts[0] == "archive" && IsSanNode(plan, parts[1]) && parts[2] in {"intent", "done"})
    || (|parts| == 4 && parts[0] != "receipt" && parts[3] in {"grant", "intent", "done"}
        && EffectNames(plan, parts[0], parts[1], parts[2]))
    || (|parts| == 4 && parts[0] == "receipt" && EffectNames(plan, parts[1], parts[2], parts[3]))
    || (|parts| == 5 && parts[0] == "transport" && parts[4] in {"intent", "done"}
        && EffectNames(plan, parts[1], parts[2], parts[3]))
  }

  // ----- names are unambiguous -----

  predicate Plain(key: Key) {
    match key
    case BarrierKey(index, _) => index < 100
    case ArchiveKey(node, _) => NoColon(node)
    case EffectKey(step, _) => NoColon(step.spot.node) && NoColon(step.spot.unit)
    case ReceiptKey(step) => NoColon(step.spot.node) && NoColon(step.spot.unit)
    case TransportKey(step, _) => NoColon(step.spot.node) && NoColon(step.spot.unit)
    case _ => true
  }

  lemma {:induction false} PaddedDiffer(a: nat, b: nat)
    requires a < 100 && b < 100 && Padded(a) == Padded(b)
    ensures a == b
  {
    if a >= 10 { assert Padded(a) == [Digit(a / 10), Digit(a % 10)] by { assert Decimal(a / 10) == [Digit(a / 10)]; } }
    if b >= 10 { assert Padded(b) == [Digit(b / 10), Digit(b % 10)] by { assert Decimal(b / 10) == [Digit(b / 10)]; } }
    assert Padded(a)[0] == Padded(b)[0] && Padded(a)[1] == Padded(b)[1];
  }

  lemma {:induction false} PartsDiffer(a: Key, b: Key)
    requires Plain(a) && Plain(b) && Parts(a) == Parts(b)
    ensures a == b
  {
    var p, q := Parts(a), Parts(b);
    assert |p| == |q| && forall i | 0 <= i < |p| :: p[i] == q[i];
    if a.BarrierKey? && b.BarrierKey? { PaddedDiffer(a.index, b.index); }
  }

  lemma {:induction false} PaddedIsPlain(n: nat)
    requires n < 100
    ensures NoColon(Padded(n))
  {
    if n >= 10 { assert Decimal(n / 10) == [Digit(n / 10)]; }
  }

  lemma {:induction false} PartsArePlain(key: Key)
    requires Plain(key)
    ensures forall i | 0 <= i < |Parts(key)| :: NoColon(Parts(key)[i])
  {
    if key.BarrierKey? { PaddedIsPlain(key.index); }
  }

  /** Distinct records have distinct names. */
  lemma {:induction false} NamesDiffer(a: Key, b: Key)
    requires Plain(a) && Plain(b) && Name(a) == Name(b)
    ensures a == b
  {
    PartsArePlain(a);
    PartsArePlain(b);
    SplitJoin(Parts(a));
    SplitJoin(Parts(b));
    PartsDiffer(a, b);
  }

  /** The records a run on this plan writes. */
  predicate OfPlan(plan: Plan, key: Key) {
    match key
    case BarrierKey(index, _) => index < 3 * |plan.participants|
    case ArchiveKey(node, _) => IsSanNode(plan, node)
    case EffectKey(step, _) => IsNode(plan, step.spot.node) && step.spot.unit in BarrierMasks(plan.table)
    case ReceiptKey(step) => IsNode(plan, step.spot.node) && step.spot.unit in BarrierMasks(plan.table)
    case TransportKey(step, _) => IsNode(plan, step.spot.node) && step.spot.unit in BarrierMasks(plan.table)
    case _ => true
  }

  /** The journal takes every record of its plan, with one exception that follows
      from the order of its tests: the records of effects on a node called receipt,
      a name the plan's own rules allow. */
  lemma {:induction false} PlanRecordsAccepted(plan: Plan, key: Key)
    requires OfPlan(plan, key) && Plain(key)
    ensures Accepted(plan, Split(Name(key))) <==> !(key.EffectKey? && key.step.spot.node == "receipt")
  {
    PartsArePlain(key);
    SplitJoin(Parts(key));
    if key.BarrierKey? {
      assert Parts(key)[1] == Padded(key.index);
    }
  }

  /** For one: */
  lemma {:induction false} NodeCalledReceipt(plan: Plan, unit: string, op: Operation, part: Part)
    requires IsNode(plan, "receipt") && unit in BarrierMasks(plan.table) && NoColon(unit)
    ensures !Accepted(plan, Split(Name(EffectKey(Step(Spot("receipt", unit), op), part))))
  {
    PlanRecordsAccepted(plan, EffectKey(Step(Spot("receipt", unit), op), part));
  }

  // ----- how many names there are -----

  lemma {:induction false} JoinSplit(s: string)
    ensures Join(Split(s)) == s
  {
    if s != "" {
      JoinSplit(s[1..]);
      var rest := Split(s[1..]);
      assert [s[0]] + s[1..] == s;
      if s[0] == ':' {
        assert ([""] + rest)[1..] == rest;
      } else if |rest| > 1 {
        assert ([[s[0]] + rest[0]] + rest[1..])[1..] == rest[1..];
        assert [s[0]] + rest[0] + ":" + Join(rest[1..]) == [s[0]] + (rest[0] + ":" + Join(rest[1..]));
      } else {
        assert [[s[0]] + rest[0]] + rest[1..] == [[s[0]] + rest[0]];
      }
    }
  }

  lemma {:induction false} MaskedUnits(unit: string) returns (i: nat)
    requires unit in BarrierMasks(SHIPPED)
    ensures i < 9 && MASKED[i] == unit
  {
    if unit == "pve-guests.service" {
      i := 8;
    } else {
      var p, u :| 0 <= p < |PHASES| && 0 <= u < |PHASES[p]| && PHASES[p][u] == unit;
      i := (if p == 0 then 0 else if p == 1 then 3 else if p == 2 then 5 else 7) + u;
    }
  }

  function FlowName(i: nat): string {
    if i == 0 then "started" else if i == 1 then "held" else if i == 2 then "release" else "complete"
  }

  /** The ith effect name: 4 nodes, 9 units, 2 operations and 6 kinds of record. */
  function EffectName(plan: Plan, j: nat): seq<string>
    requires |plan.participants| == 4 && j < 432
  {
    var node, unit, op, kind := plan.participants[j / 108].node, MASKED[j % 108 / 12], OpName(if j % 12 / 6 == 0 then UNMASK else START), j % 6;
    if kind == 0 then [node, unit, op, "grant"] else if kind == 1 then [node, unit, op, "intent"]
    else if kind == 2 then [node, unit, op, "done"] else if kind == 3 then ["receipt", node, unit, op]
    else if kind == 4 then ["transport", node, unit, op, "intent"] else ["transport", node, unit, op, "done"]
  }

  /** All names a journal can hold, with the SAN nodes listed apart. */
  function NameAt(plan: Plan, san: seq<string>, i: nat): seq<string>
    requires |plan.participants| == 4 && |san| == 3 && i < 483
  {
    if i == 0 then ["baseline"]
    else if i < 5 then ["flow", FlowName(i - 1)]
    else if i < 9 then ["node-baseline", plan.participants[i - 5].node]
    else if i < 45 then ["barrier", Padded((i - 9) / 3), KindName(Barrier.KindAt((i - 9) % 3))]
    else if i < 51 then ["archive", san[(i - 45) / 2], Half((i - 45) % 2 == 1)]
    else EffectName(plan, i - 51)
  }

  lemma {:induction false} EffectNumbered(plan: Plan, node: string, unit: string, op: string, kind: nat) returns (j: nat)
    requires |plan.participants| == 4 && plan.table == SHIPPED && EffectNames(plan, node, unit, op) && kind < 6
    ensures j < 432 && j % 6 == kind && plan.participants[j / 108].node == node && MASKED[j % 108 / 12] == unit
    ensures OpName(if j % 12 / 6 == 0 then UNMASK else START) == op
  {
    hide BarrierMasks;
    var r :| 0 <= r < 4 && plan.participants[r].node == node;
    var u := MaskedUnits(unit);
    var o := if op == "UNMASK" then 0 else 1;
    j := 108 * r + 12 * u + 6 * o + kind;
    PlacesOf(r, u, o, kind);
  }

  lemma {:induction false} PlacesOf(r: nat, u: nat, o: nat, k: nat)
    requires r < 4 && u < 9 && o < 2 && k < 6
    ensures var j := 108 * r + 12 * u + 6 * o + k;
            j < 432 && j / 108 == r && j % 108 / 12 == u && j % 12 / 6 == o && j % 6 == k
  {}

  lemma {:induction false} Numbered(plan: Plan, san: seq<string>, parts: seq<string>) returns (i: nat)
    requires |plan.participants| == 4 && plan.table == SHIPPED && |san| == 3
    requires forall node | IsSanNode(plan, node) :: node in san
    requires Accepted(plan, parts)
    ensures i < 483 && NameAt(plan, san, i) == parts
  {
    hide EffectNames, Padded, IsSanNode;
    if parts == ["baseline"] {
      i := 0;
    } else if |parts| == 2 && parts[0] == "flow" {
      i := if parts[1] == "started" then 1 else if parts[1] == "held" then 2 else if parts[1] == "release" then 3 else 4;
      assert parts == [parts[0], parts[1]];
    } else if |parts| == 2 {
      var r :| 0 <= r < 4 && plan.participants[r].node == parts[1];
      i := 5 + r;
      assert parts == [parts[0], parts[1]];
    } else if |parts| == 3 {
      i := NumberedTriple(plan, san, parts);
    } else {
      i := NumberedEffect(plan, san, parts);
    }
  }

  lemma {:induction false} NumberedTriple(plan: Plan, san: seq<string>, parts: seq<string>) returns (i: nat)
    requires |plan.participants| == 4 && |san| == 3
    requires forall node | IsSanNode(plan, node) :: node in san
    requires |parts| == 3 && Accepted(plan, parts)
    ensures i < 483 && NameAt(plan, san, i) == parts
  {
    hide EffectNames, Padded, IsSanNode, IsNode;
    if parts[0] == "barrier" {
      var n :| 0 <= n < 12 && parts[1] == Padded(n);
      i := 9 + 3 * n + (if parts[2] == "INTENT_DURABLE" then 0 else if parts[2] == "ATTEMPTED" then 1 else 2);
    } else {
      var r :| 0 <= r < 3 && san[r] == parts[1];
      i := 45 + 2 * r + (if parts[2] == "done" then 1 else 0);
    }
    assert parts == [parts[0], parts[1], parts[2]];
  }

  lemma {:induction false} NumberedEffect(plan: Plan, san: seq<string>, parts: seq<string>) returns (i: nat)
    requires |plan.participants| == 4 && plan.table == SHIPPED && |san| == 3
    requires |parts| >= 4 && Accepted(plan, parts)
    ensures i < 483 && NameAt(plan, san, i) == parts
  {
    hide EffectNames;
    var j: nat;
    if |parts| == 4 && parts[0] != "receipt" {
      j := EffectNumbered(plan, parts[0], parts[1], parts[2], if parts[3] == "grant" then 0 else if parts[3] == "intent" then 1 else 2);
      assert parts == [parts[0], parts[1], parts[2], parts[3]];
    } else if |parts| == 4 {
      j := EffectNumbered(plan, parts[1], parts[2], parts[3], 3);
      assert parts == [parts[0], parts[1], parts[2], parts[3]];
    } else {
      j := EffectNumbered(plan, parts[1], parts[2], parts[3], if parts[4] == "intent" then 4 else 5);
      assert parts == [parts[0], parts[1], parts[2], parts[3], parts[4]];
    }
    i := 51 + j;
  }

  lemma {:induction false} Covered(names: set<string>, f: nat -> string, n: nat)
    requires forall name | name in names :: exists i: nat :: i < n && f(i) == name
    ensures |names| <= n
  {
    if n == 0 {
      assert names == {};
    } else {
      Covered(names - {f(n - 1)}, f, n - 1);
    }
  }

  /** With the shipped table, four participants and three of them SAN, a journal
      holds at most 483 names: its budget of 512 records never refuses a write. */
  lemma {:induction false} BudgetNeverBinds(plan: Plan, san: seq<string>, names: set<string>)
    requires |plan.participants| == 4 && plan.table == SHIPPED && |san| == 3
    requires forall node | IsSanNode(plan, node) :: node in san
    requires forall name | name in names :: Accepted(plan, Split(name))
    ensures |names| <= 483 < 512
  {
    var f := (i: nat) => if i < 483 then Join(NameAt(plan, san, i)) else "";
    forall name | name in names ensures exists i: nat :: i < 483 && f(i) == name {
      var i := Numbered(plan, san, Split(name));
      JoinSplit(name);
      assert f(i) == name;
    }
    Covered(names, f, 483);
  }
}
