/** The trace evaluator of one storage.cfg compare-and-swap and its settlement
    (layout-migration-config-cas-model.py): the loop as written, and the language
    it accepts and the verdicts it gives, described without it. */
module ConfigCas {
  import opened Common

  const MAX_BYTES := 1024 * 1024
  const MAX_EVENTS := 16
  const MAX_INT := 0x7fff_ffff_ffff_ffff

  datatype Request = Request(
    digest: string, attemptId: string, baseline: Bytes, target: Bytes, issued: int, expires: int, start: int)

  datatype Durability = DURABLE | FAILED | UNPROVEN
  datatype CasOutcome = SUCCESS | ERROR | UNCLEAR
  datatype Relation = TARGET | BASELINE | FOREIGN | UNKNOWN
  datatype Body =
    | Reserve | IntentAck(durability: Durability) | Dispatch | Return(outcome: CasOutcome, detail: string) | Crash
    | Quiescence(terminated: bool, locked: bool, current: bool)
    | Observe(ok: bool, raw: Option<Bytes>) | ReceiptAck(durability: Durability)
  datatype Event = Event(sequence: int, attemptId: string, digest: string, wall: int, mono: int, body: Body)

  datatype Phase =
    | NEW | INTENT_PENDING | INTENT_DURABLE | CAS_DISPATCHED | SETTLEMENT_PENDING | SETTLEMENT_ADMITTED | OBSERVED | TERMINAL
  datatype Reason =
    | WALL_CLOCK_ROLLBACK | EXPIRED | INTENT_DURABILITY_UNPROVEN | SETTLEMENT_PUBLICATION_INTERRUPTED
    | SUCCESS_OBSERVATION_CONTRADICTION | SETTLEMENT_DURABILITY_UNPROVEN
  datatype Verdict = NEW_NO_EFFECT | UNKNOWN_RETAIN | TARGET_OBSERVED | BASELINE_OBSERVED | FOREIGN_OBSERVED

  datatype State = State(
    phase: Phase, dispatches: nat, outcome: Option<CasOutcome>, observed: Option<Relation>,
    intentDurable: bool, receiptDurable: bool, crashed: bool, poison: seq<Reason>, wall: int, mono: int)

  predicate ValidRequest(q: Request) {
    && 0 < |q.baseline| <= MAX_BYTES && 0 < |q.target| <= MAX_BYTES && q.baseline != q.target
    && 0 <= q.issued <= MAX_INT && 0 <= q.expires <= MAX_INT && 0 <= q.start <= MAX_INT
    && 0 < q.expires - q.issued <= 1800 * 1000000000
    && q.start + (q.expires - q.issued) <= MAX_INT
  }

  function Deadline(q: Request): int {
    q.start + q.expires - q.issued
  }

  function Start(q: Request): State {
    State(NEW, 0, None, None, false, false, false, [], q.issued, q.start)
  }

  function Related(q: Request, raw: Bytes): Relation {
    if raw == q.target then TARGET else if raw == q.baseline then BASELINE else FOREIGN
  }

  // ----- the loop body, one event at a time -----

  predicate Bound(q: Request, index: nat, e: Event) {
    && e.sequence == index + 1 && e.attemptId == q.attemptId && e.digest == q.digest
    && 0 <= e.wall <= MAX_INT && 0 <= e.mono <= MAX_INT
  }

  function Add(poison: seq<Reason>, reason: Reason, when: bool): seq<Reason> {
    if when && reason !in poison then poison + [reason] else poison
  }

  function Clocked(q: Request, st: State, e: Event): State {
    var rolled := Add(st.poison, WALL_CLOCK_ROLLBACK, e.wall < st.wall);
    st.(poison := Add(rolled, EXPIRED, e.wall > q.expires || e.mono > Deadline(q)), wall := e.wall, mono := e.mono)
  }

  function Next(q: Request, before: State, index: nat, e: Event): Option<State> {
    if !Bound(q, index, e) || e.mono < before.mono || before.phase == TERMINAL then None
    else
      var st := Clocked(q, before, e);
      match e.body
      case Reserve =>
        if st.phase == NEW && st.poison == [] then Some(st.(phase := INTENT_PENDING)) else None
      case IntentAck(durability) =>
        if st.phase != INTENT_PENDING then None
        else if durability == DURABLE then Some(st.(intentDurable := true, phase := INTENT_DURABLE))
        else Some(st.(intentDurable := false, phase := TERMINAL, poison := st.poison + [INTENT_DURABILITY_UNPROVEN]))
      case Dispatch =>
        if st.phase == INTENT_DURABLE && st.intentDurable && !st.crashed && st.poison == [] && st.dispatches == 0
        then Some(st.(dispatches := 1, phase := CAS_DISPATCHED)) else None
      case Return(outcome, detail) =>
        if st.phase == CAS_DISPATCHED && |detail| <= 4096
        then Some(st.(outcome := Some(outcome), phase := SETTLEMENT_PENDING)) else None
      case Crash =>
        if st.phase == NEW || st.crashed then None
        else if st.observed.Some?
        then Some(st.(crashed := true, phase := TERMINAL, poison := st.poison + [SETTLEMENT_PUBLICATION_INTERRUPTED]))
        else Some(st.(crashed := true, phase := SETTLEMENT_PENDING))
      case Quiescence(terminated, locked, current) =>
        if st.phase == SETTLEMENT_PENDING && terminated && locked && current
        then Some(st.(phase := SETTLEMENT_ADMITTED)) else None
      case Observe(ok, raw) =>
        if st.phase != SETTLEMENT_ADMITTED then None
        else if if ok then raw == None || |raw.value| > MAX_BYTES else raw.Some? then None
        else
          var seen := if ok then Related(q, raw.value) else UNKNOWN;
          var contradiction := st.outcome == Some(SUCCESS) && seen != TARGET;
          Some(st.(observed := Some(seen), phase := OBSERVED,
                   poison := if contradiction then st.poison + [SUCCESS_OBSERVATION_CONTRADICTION] else st.poison))
      case ReceiptAck(durability) =>
        if st.phase != OBSERVED then None
        else Some(st.(receiptDurable := durability == DURABLE, phase := TERMINAL,
                      poison := if durability == DURABLE then st.poison else st.poison + [SETTLEMENT_DURABILITY_UNPROVEN]))
  }

  function Run(q: Request, events: seq<Event>): Option<State> {
    if events == [] then Some(Start(q))
    else
      match Run(q, events[..|events| - 1])
      case None => None
      case Some(st) => Next(q, st, |events| - 1, events[|events| - 1])
  }

  function Classify(st: State): Verdict {
    if st.receiptDurable && st.poison == [] then
      match st.observed
      case Some(TARGET) => TARGET_OBSERVED
      case Some(BASELINE) => BASELINE_OBSERVED
      case Some(FOREIGN) => FOREIGN_OBSERVED
      case _ => UNKNOWN_RETAIN
    else if st.phase == NEW then NEW_NO_EFFECT else UNKNOWN_RETAIN
  }

  /** The clock checks poison; they never refuse. */
  method ReadClocks(q: Request, before: State, e: Event) returns (poison: seq<Reason>)
    ensures Clocked(q, before, e) == before.(poison := poison, wall := e.wall, mono := e.mono)
  {
    poison := before.poison;
    if e.wall < before.wall && WALL_CLOCK_ROLLBACK !in poison { poison := poison + [WALL_CLOCK_ROLLBACK]; }
    if e.wall > q.expires || e.mono > q.start + q.expires - q.issued {
      if EXPIRED !in poison { poison := poison + [EXPIRED]; }
    }
  }

  /** The body of evaluate's loop, variable by variable. */
  method TakeEvent(q: Request, before: State, index: nat, e: Event) returns (r: Option<State>)
    ensures r == Next(q, before, index, e)
  {
    hide Related, Bound, Clocked;
    var State(phase, dispatches, outcome, observed, intentDurable, receiptDurable, crashed, poison, wall, mono) := before;
    if !Bound(q, index, e) || e.mono < mono || phase == TERMINAL { return None; }
    poison := ReadClocks(q, before, e);
    wall, mono := e.wall, e.mono;
    match e.body {
      case Reserve =>
        if phase != NEW || poison != [] { return None; }
        phase := INTENT_PENDING;
      case IntentAck(durability) =>
        if phase != INTENT_PENDING { return None; }
        intentDurable := durability == DURABLE;
        phase := if intentDurable then INTENT_DURABLE else TERMINAL;
        if !intentDurable { poison := poison + [INTENT_DURABILITY_UNPROVEN]; }
      case Dispatch =>
        if !(phase == INTENT_DURABLE && intentDurable && !crashed && poison == [] && dispatches == 0) { return None; }
        dispatches, phase := 1, CAS_DISPATCHED;
      case Return(result, detail) =>
        if phase != CAS_DISPATCHED || |detail| > 4096 { return None; }
        outcome, phase := Some(result), SETTLEMENT_PENDING;
      case Crash =>
        if phase == NEW || crashed { return None; }
        crashed := true;
        phase := if observed.Some? then TERMINAL else SETTLEMENT_PENDING;
        if observed.Some? { poison := poison + [SETTLEMENT_PUBLICATION_INTERRUPTED]; }
      case Quiescence(terminated, locked, current) =>
        if phase != SETTLEMENT_PENDING || !(terminated && locked && current) { return None; }
        phase := SETTLEMENT_ADMITTED;
      case Observe(ok, raw) =>
        if phase != SETTLEMENT_ADMITTED { return None; }
        if !ok {
          if raw != None { return None; }
          observed := Some(UNKNOWN);
        } else {
          if raw == None || |raw.value| > MAX_BYTES { return None; }
          observed := Some(Related(q, raw.value));
        }
        if outcome == Some(SUCCESS) && observed != Some(TARGET) { poison := poison + [SUCCESS_OBSERVATION_CONTRADICTION]; }
        phase := OBSERVED;
      case ReceiptAck(durability) =>
        if phase != OBSERVED { return None; }
        receiptDurable := durability == DURABLE;
        if !receiptDurable { poison := poison + [SETTLEMENT_DURABILITY_UNPROVEN]; }
        phase := TERMINAL;
    }
    return Some(State(phase, dispatches, outcome, observed, intentDurable, receiptDurable, crashed, poison, wall, mono));
  }

  /** evaluate: one loop over the events, then the verdict. */
  method Evaluate(q: Request, events: seq<Event>) returns (r: Option<(Verdict, State)>)
    ensures r.Some? <==> && 0 < |q.baseline| <= 1048576 && 0 < |q.target| <= 1048576 && q.baseline != q.target
                         && 0 <= q.issued < q.expires <= 0x7fff_ffff_ffff_ffff && q.expires - q.issued <= 1800000000000
                         && 0 <= q.start && q.start + (q.expires - q.issued) <= 0x7fff_ffff_ffff_ffff
                         && |events| <= 16 && Run(q, events).Some?
    ensures r.Some? ==> r.value == (Classify(Run(q, events).value), Run(q, events).value)
  {
    hide Run, Next;
    NothingYet(q, events);
    if !ValidRequest(q) || |events| > MAX_EVENTS { return None; }
    var st := Start(q);
    for i := 0 to |events|
      invariant Run(q, events[..i]) == Some(st)
    {
      OneMore(q, events, i);
      var next := TakeEvent(q, st, i, events[i]);
      if next == None { return None; }
      st := next.value;
    }
    assert events[..|events|] == events;
    DurableReceiptIsTerminal(q, events);
    var verdict := if st.phase == NEW then NEW_NO_EFFECT else UNKNOWN_RETAIN;
    if st.receiptDurable && st.poison == [] {
      verdict := match st.observed.value
                 case TARGET => TARGET_OBSERVED
                 case BASELINE => BASELINE_OBSERVED
                 case FOREIGN => FOREIGN_OBSERVED
                 case UNKNOWN => UNKNOWN_RETAIN;
    }
    return Some((verdict, st));
  }

  lemma {:induction false} NothingYet(q: Request, events: seq<Event>)
    ensures Run(q, events[..0]) == Some(Start(q))
  {}

  lemma {:induction false} OneMore(q: Request, events: seq<Event>, i: nat)
    requires i < |events|
    ensures Run(q, events[..i + 1])
            == match Run(q, events[..i]) case None => None case Some(st) => Next(q, st, i, events[i])
    ensures Run(q, events[..i + 1]) == None ==> Run(q, events) == None
  {
    assert events[..i + 1][..i] == events[..i];
    if Run(q, events[..i + 1]) == None { RefusedStays(q, events, i + 1); }
  }

  /** The accepted traces are closed under prefixes. */
  lemma {:induction false} RefusedStays(q: Request, events: seq<Event>, k: nat)
    requires k <= |events| && Run(q, events[..k]) == None
    ensures Run(q, events) == None
  {
    if k < |events| {
      assert events[..|events| - 1][..k] == events[..k];
      RefusedStays(q, events[..|events| - 1], k);
    } else {
      assert events[..k] == events;
    }
  }

  lemma {:induction false} DurableReceiptIsTerminal(q: Request, events: seq<Event>)
    requires Run(q, events).Some?
    ensures var st := Run(q, events).value;
            (st.receiptDurable ==> st.observed.Some? && st.phase == TERMINAL) && (st.phase == OBSERVED ==> st.observed.Some?)
  {
    if events != [] { DurableReceiptIsTerminal(q, events[..|events| - 1]); }
  }

  // ----- the language, without the loop -----

  /** The index of the crash, or the length if there is none. */
  function CrashAt(events: seq<Event>): (c: nat)
    ensures c <= |events|
  {
    if events == [] then 0
    else
      var n := |events| - 1;
      var c := CrashAt(events[..n]);
      if c < n then c else if events[n].body.Crash? then n else n + 1
  }

  /** The seven places of an undisturbed attempt. */
  predicate Fits(body: Body, place: nat) {
    match body
    case Reserve => place == 0
    case IntentAck(_) => place == 1
    case Dispatch => place == 2
    case Return(_, _) => place == 3
    case Quiescence(_, _, _) => place == 4
    case Observe(_, _) => place == 5
    case ReceiptAck(_) => place == 6
    case Crash => false
  }

  predicate BodyOk(body: Body) {
    match body
    case Return(_, detail) => |detail| <= 4096
    case Quiescence(terminated, locked, current) => terminated && locked && current
    case Observe(ok, raw) => if ok then raw.Some? && |raw.value| <= 1048576 else raw == None
    case _ => true
  }

  predicate IntentFailed(events: seq<Event>) {
    |events| > 1 && events[1].body.IntentAck? && events[1].body.durability != DURABLE
  }

  /** Which kind may stand at index i when the crash is at index c: before the crash
      the undisturbed order, after it settlement from quiescence on. */
  predicate InPlace(events: seq<Event>, c: nat, i: nat)
    requires i < |events|
  {
    if i < c then Fits(events[i].body, i) else if i == c then events[i].body.Crash? else Fits(events[i].body, i - c + 3)
  }

  predicate AllInPlace(events: seq<Event>, c: nat) {
    forall i | 0 <= i < |events| :: InPlace(events, c, i)
  }

  predicate InLanguage(events: seq<Event>) {
    var n, c := |events|, CrashAt(events);
    && AllInPlace(events, c)
    && (IntentFailed(events) ==> n == 2)
    && (if c == n then n <= 7 else 1 <= c <= 6 && n <= (if c == 6 then 7 else c + 4))
  }

  function WallBefore(q: Request, events: seq<Event>, i: nat): int
    requires i <= |events|
  {
    if i == 0 then q.issued else events[i - 1].wall
  }

  function MonoBefore(q: Request, events: seq<Event>, i: nat): int
    requires i <= |events|
  {
    if i == 0 then q.start else events[i - 1].mono
  }

  /** The wall clock has not gone back and neither clock is past the budget. */
  predicate OnTime(q: Request, events: seq<Event>, i: nat)
    requires i < |events|
  {
    WallBefore(q, events, i) <= events[i].wall <= q.expires && events[i].mono - q.start <= q.expires - q.issued
  }

  predicate OnTimeUpTo(q: Request, events: seq<Event>, k: nat)
    requires k <= |events|
  {
    forall i | 0 <= i < k :: OnTime(q, events, i)
  }

  predicate WellFormed(q: Request, events: seq<Event>, i: nat)
    requires i < |events|
  {
    && events[i].sequence == i + 1 && events[i].attemptId == q.attemptId && events[i].digest == q.digest
    && 0 <= events[i].wall <= 0x7fff_ffff_ffff_ffff && MonoBefore(q, events, i) <= events[i].mono <= 0x7fff_ffff_ffff_ffff
    && 0 <= events[i].mono && BodyOk(events[i].body)
  }

  predicate Legal(q: Request, events: seq<Event>) {
    && InLanguage(events)
    && (forall i | 0 <= i < |events| :: WellFormed(q, events, i))
    && (|events| > 0 ==> OnTime(q, events, 0))
    && (|events| > 2 && CrashAt(events) > 2 ==> OnTimeUpTo(q, events, 3))
  }

  // ----- what the loop knows after a legal trace -----

  function PhaseAfter(events: seq<Event>): Phase {
    var n, c := |events|, CrashAt(events);
    var place := if c == n then n else if c == 6 then 7 else n - c + 3;
    if IntentFailed(events) then TERMINAL
    else if place == 0 then NEW
    else if place == 1 then INTENT_PENDING
    else if place == 2 then INTENT_DURABLE
    else if place == 3 then CAS_DISPATCHED
    else if place == 4 then SETTLEMENT_PENDING
    else if place == 5 then SETTLEMENT_ADMITTED
    else if place == 6 then OBSERVED
    else TERMINAL
  }

  function ObservedAt(events: seq<Event>): nat {
    var c := CrashAt(events);
    if c < |events| && c < 6 then c + 2 else 5
  }

  function RelationAt(q: Request, e: Event): Relation {
    if e.body.Observe? && e.body.ok && e.body.raw.Some? then Related(q, e.body.raw.value) else UNKNOWN
  }

  function OutcomeOf(events: seq<Event>): Option<CasOutcome> {
    if |events| > 3 && events[3].body.Return? then Some(events[3].body.outcome) else None
  }

  function ObservedBy(q: Request, events: seq<Event>): Option<Relation> {
    if ObservedAt(events) < |events| then Some(RelationAt(q, events[ObservedAt(events)])) else None
  }

  predicate Acknowledged(events: seq<Event>) {
    var r := ObservedAt(events) + 1;
    r < |events| && events[r].body.ReceiptAck? && events[r].body.durability == DURABLE
  }

  predicate Describes(q: Request, events: seq<Event>, st: State) {
    var n, c := |events|, CrashAt(events);
    && st.phase == PhaseAfter(events)
    && st.crashed == (c < n)
    && st.intentDurable == (c > 1 && n > 1 && !IntentFailed(events))
    && st.dispatches == (if c > 2 && n > 2 then 1 else 0)
    && st.outcome == OutcomeOf(events)
    && st.observed == ObservedBy(q, events)
    && st.receiptDurable == Acknowledged(events)
    && st.wall == WallBefore(q, events, n) && st.mono == MonoBefore(q, events, n)
    && (st.poison == [] <==> Unpoisoned(q, events))
  }

  /** No clock trouble, and none of the four other ways to poison an attempt. */
  predicate Unpoisoned(q: Request, events: seq<Event>) {
    && OnTimeUpTo(q, events, |events|)
    && !IntentFailed(events)
    && !(CrashAt(events) == 6 < |events|)
    && !(OutcomeOf(events) == Some(SUCCESS) && ObservedBy(q, events) !in {None, Some(TARGET)})
    && (ObservedAt(events) + 1 < |events| ==> Acknowledged(events))
  }

  lemma {:induction false} CrashGrows(before: seq<Event>, e: Event)
    ensures var n, c := |before|, CrashAt(before);
            CrashAt(before + [e]) == if c < n then c else if e.body.Crash? then n else n + 1
  {
    assert (before + [e])[..|before|] == before;
  }

  /** Earlier events keep their places and their clocks. */
  lemma {:induction false} EarlierKept(q: Request, before: seq<Event>, e: Event, i: nat)
    requires i < |before|
    ensures var events := before + [e];
            && (WellFormed(q, events, i) <==> WellFormed(q, before, i))
            && (OnTime(q, events, i) <==> OnTime(q, before, i))
  {}

  lemma {:induction false} PlacesGrow(before: seq<Event>, e: Event)
    ensures InLanguage(before + [e])
            <==> InLanguage(before) && !IntentFailed(before)
                 && var n, c := |before|, CrashAt(before);
                    if c < n then c < 6 && n < c + 4 && Fits(e.body, n - c + 3)
                    else if e.body.Crash? then 1 <= n <= 6
                    else n < 7 && Fits(e.body, n)
  {
    hide AllInPlace, InPlace, Fits, CrashAt, IntentFailed;
    CrashGrows(before, e);
    LastPlace(before, e);
    IntentFailedGrows(before, e);
  }

  lemma {:induction false} LastPlace(before: seq<Event>, e: Event)
    ensures var events, n, c := before + [e], |before|, CrashAt(before);
            AllInPlace(events, CrashAt(events))
            <==> AllInPlace(before, c) && if c < n then Fits(e.body, n - c + 3) else e.body.Crash? || Fits(e.body, n)
  {
    hide Fits, CrashAt, InPlace;
    var events, n, c := before + [e], |before|, CrashAt(before);
    CrashGrows(before, e);
    forall i | 0 <= i < n ensures InPlace(events, CrashAt(events), i) <==> InPlace(before, c, i) {
      EarlierPlace(before, e, i);
    }
    NewPlace(before, e);
  }

  lemma {:induction false} NewPlace(before: seq<Event>, e: Event)
    ensures var events, n, c := before + [e], |before|, CrashAt(before);
            InPlace(events, CrashAt(events), n)
            <==> if c < n then Fits(e.body, n - c + 3) else e.body.Crash? || Fits(e.body, n)
  {
    hide CrashAt;
    CrashGrows(before, e);
  }

  lemma {:induction false} EarlierPlace(before: seq<Event>, e: Event, i: nat)
    requires i < |before|
    ensures InPlace(before + [e], CrashAt(before + [e]), i) <==> InPlace(before, CrashAt(before), i)
  {
    hide Fits, CrashAt;
    CrashGrows(before, e);
  }

  lemma {:induction false} IntentFailedGrows(before: seq<Event>, e: Event)
    ensures |before| > 1 ==> (IntentFailed(before + [e]) <==> IntentFailed(before))
    ensures |before| <= 1 ==> !IntentFailed(before)
    ensures |before| == 0 ==> !IntentFailed(before + [e])
  {}

  /** What one more event must be, given a legal trace before it. */
  lemma {:induction false} LegalGrows(q: Request, before: seq<Event>, e: Event)
    ensures var events, n := before + [e], |before|;
            Legal(q, events)
            <==> && Legal(q, before) && InLanguage(events) && WellFormed(q, events, n)
                 && (n == 0 ==> OnTime(q, events, 0))
                 && (n == 2 && CrashAt(events) > 2 ==> OnTimeUpTo(q, events, 3))
  {
    hide InLanguage, WellFormed, OnTime, Fits, IntentFailed, CrashAt;
    var events, n := before + [e], |before|;
    PlacesGrow(before, e);
    CrashGrows(before, e);
    forall i | 0 <= i < n
      ensures WellFormed(q, events, i) <==> WellFormed(q, before, i)
      ensures OnTime(q, events, i) <==> OnTime(q, before, i)
    {
      EarlierKept(q, before, e, i);
    }
  }

  // ----- one event, loop and language side by side -----

  lemma {:induction false} OutcomeGrows(before: seq<Event>, e: Event)
    ensures OutcomeOf(before + [e]) == if |before| == 3 && e.body.Return? then Some(e.body.outcome)
                                       else OutcomeOf(before)
  {}

  lemma {:induction false} ObservedGrows(q: Request, before: seq<Event>, e: Event)
    requires InLanguage(before + [e])
    ensures ObservedBy(q, before + [e]) == if e.body.Observe? then Some(RelationAt(q, e)) else ObservedBy(q, before)
    ensures Acknowledged(before + [e]) <==> e.body.ReceiptAck? && e.body.durability == DURABLE
    ensures !Acknowledged(before)
  {
    hide CrashAt, InLanguage, IntentFailed, RelationAt;
    PlacesGrow(before, e);
    CrashGrows(before, e);
    LanguageSize(before);
  }

  lemma {:induction false} LanguageSize(events: seq<Event>)
    requires InLanguage(events)
    ensures var n, c := |events|, CrashAt(events); if c == n then n <= 7 else 1 <= c <= 6 && n <= (if c == 6 then 7 else c + 4)
  {
    hide AllInPlace, CrashAt;
  }

  lemma {:induction false} PhaseGrows(before: seq<Event>, e: Event)
    requires InLanguage(before + [e])
    ensures PhaseAfter(before + [e])
            == match e.body
               case Reserve => INTENT_PENDING
               case IntentAck(d) => if d == DURABLE then INTENT_DURABLE else TERMINAL
               case Dispatch => CAS_DISPATCHED
               case Return(_, _) => SETTLEMENT_PENDING
               case Crash => if |before| == 6 then TERMINAL else SETTLEMENT_PENDING
               case Quiescence(_, _, _) => SETTLEMENT_ADMITTED
               case Observe(_, _) => OBSERVED
               case ReceiptAck(_) => TERMINAL
  {
    hide CrashAt, InLanguage;
    PlacesGrow(before, e);
    CrashGrows(before, e);
    LanguageSize(before);
  }

  /** The phase says which events may come next. */
  lemma {:induction false} PhaseAdmits(before: seq<Event>, e: Event)
    requires InLanguage(before)
    ensures var phase := PhaseAfter(before);
            InLanguage(before + [e])
            <==> match e.body
                 case Reserve => phase == NEW
                 case IntentAck(_) => phase == INTENT_PENDING
                 case Dispatch => phase == INTENT_DURABLE
                 case Return(_, _) => phase == CAS_DISPATCHED
                 case Crash => phase != NEW && phase != TERMINAL && CrashAt(before) == |before|
                 case Quiescence(_, _, _) => phase == SETTLEMENT_PENDING
                 case Observe(_, _) => phase == SETTLEMENT_ADMITTED
                 case ReceiptAck(_) => phase == OBSERVED
  {
    hide CrashAt, InLanguage;
    PlacesGrow(before, e);
    LanguageSize(before);
    if IntentFailed(before) { IntentFailedEnds(before); }
  }

  lemma {:induction false} IntentFailedEnds(events: seq<Event>)
    requires InLanguage(events) && IntentFailed(events)
    ensures |events| == 2 == CrashAt(events)
  {
    hide CrashAt;
    assert InPlace(events, CrashAt(events), 1);
  }

  lemma {:induction false} OnTimeGrows(q: Request, before: seq<Event>, e: Event)
    ensures OnTimeUpTo(q, before + [e], |before| + 1) <==> OnTimeUpTo(q, before, |before|) && OnTime(q, before + [e], |before|)
  {
    forall i | 0 <= i < |before| ensures OnTime(q, before + [e], i) <==> OnTime(q, before, i) {
      EarlierKept(q, before, e, i);
    }
  }

  lemma {:induction false} UnpoisonedGrows(q: Request, before: seq<Event>, e: Event)
    requires InLanguage(before + [e])
    ensures Unpoisoned(q, before + [e])
            <==> && Unpoisoned(q, before) && OnTime(q, before + [e], |before|)
                 && match e.body
                    case IntentAck(d) => d == DURABLE
                    case Crash => |before| != 6
                    case Observe(_, _) => OutcomeOf(before) == Some(SUCCESS) ==> RelationAt(q, e) == TARGET
                    case ReceiptAck(d) => d == DURABLE
                    case _ => true
  {
    hide CrashAt, InLanguage, RelationAt, OnTime, OnTimeUpTo, OutcomeOf, Acknowledged;
    PlacesGrow(before, e);
    CrashGrows(before, e);
    LanguageSize(before);
    OnTimeGrows(q, before, e);
    OutcomeGrows(before, e);
    ObservedGrows(q, before, e);
    var events, n, c := before + [e], |before|, CrashAt(before);
    assert events[..n] == before;
    assert IntentFailed(events) <==> IntentFailed(before) || (e.body.IntentAck? && e.body.durability != DURABLE);
    assert (CrashAt(events) == 6 < |events|) <==> (c == 6 < n) || (e.body.Crash? && n == 6);
    assert (ObservedAt(events) + 1 < |events|) <==> e.body.ReceiptAck? || (e.body.Crash? && n == 6);
    assert !(ObservedAt(before) + 1 < n);
  }

  lemma {:induction false} ClocksPoison(q: Request, before: seq<Event>, e: Event, st: State)
    requires st.wall == WallBefore(q, before, |before|)
    ensures Clocked(q, st, e).poison == [] <==> st.poison == [] && OnTime(q, before + [e], |before|)
    ensures Clocked(q, st, e) == st.(poison := Clocked(q, st, e).poison, wall := e.wall, mono := e.mono)
  {}

  /** Where each kind of event stands. */
  lemma {:induction false} PlaceFacts(q: Request, before: seq<Event>, e: Event)
    requires InLanguage(before + [e])
    ensures var n, c := |before|, CrashAt(before);
            match e.body
            case Reserve => n == 0
            case IntentAck(_) => n == 1 == c
            case Dispatch => n == 2 == c && !IntentFailed(before)
            case Return(_, _) => n == 3 == c
            case Crash => n == c && 1 <= n <= 6 && (ObservedBy(q, before).Some? <==> n == 6) && !IntentFailed(before)
            case _ => n > c || n >= 4
    ensures |before| == 0 ==> e.body.Reserve?
    ensures |before| == 2 && CrashAt(before + [e]) > 2 ==> e.body.Dispatch?
    ensures |before| > 1 ==> (IntentFailed(before + [e]) <==> IntentFailed(before))
    ensures |before| < 2 ==> !IntentFailed(before)
    ensures IntentFailed(before + [e]) <==> e.body.IntentAck? && e.body.durability != DURABLE
  {
    hide CrashAt, InLanguage, RelationAt;
    PlacesGrow(before, e);
    CrashGrows(before, e);
    LanguageSize(before);
    IntentFailedGrows(before, e);
    assert |before| == 1 ==> (before + [e])[1] == e;
  }

  lemma {:induction false} DispatchGuard(q: Request, before: seq<Event>, e: Event)
    requires |before| == 2 == CrashAt(before) && !IntentFailed(before)
    ensures OnTimeUpTo(q, before + [e], 3) <==> Unpoisoned(q, before) && OnTime(q, before + [e], 2)
  {
    hide CrashAt, OnTime, OnTimeUpTo;
    OnTimeGrows(q, before, e);
  }

  lemma {:induction false} NothingPoisons(q: Request)
    ensures Unpoisoned(q, [])
  {}

  /** The loop body admits an event exactly when the language does, and the
      description moves along. */
  lemma {:induction false} StepMatches(q: Request, before: seq<Event>, e: Event, st: State)
    requires Legal(q, before) && Describes(q, before, st)
    ensures Next(q, st, |before|, e).Some? <==> Legal(q, before + [e])
    ensures Next(q, st, |before|, e).Some? ==> Describes(q, before + [e], Next(q, st, |before|, e).value)
  {
    hide CrashAt, InLanguage, Related, OnTime, OnTimeUpTo, OutcomeOf, ObservedBy, Acknowledged, PhaseAfter, Unpoisoned, Clocked;
    LegalGrows(q, before, e);
    PhaseAdmits(before, e);
    CrashGrows(before, e);
    ClocksPoison(q, before, e, st);
    if InLanguage(before + [e]) {
      PlaceFacts(q, before, e);
      NothingPoisons(q);
      if e.body.Dispatch? { DispatchGuard(q, before, e); }
      PhaseGrows(before, e);
      OutcomeGrows(before, e);
      ObservedGrows(q, before, e);
      UnpoisonedGrows(q, before, e);
    }
  }

  /** The traces the loop accepts are exactly the legal ones, and after a legal
      trace it knows exactly what the description says. */
  lemma {:induction false} AcceptedIsLegal(q: Request, events: seq<Event>)
    ensures Run(q, events).Some? <==> Legal(q, events)
    ensures Run(q, events).Some? ==> Describes(q, events, Run(q, events).value)
  {
    if events == [] {
    } else {
      hide Next, Legal, Describes;
      var before, e := events[..|events| - 1], events[|events| - 1];
      assert events == before + [e];
      AcceptedIsLegal(q, before);
      if Run(q, before).Some? {
        StepMatches(q, before, e, Run(q, before).value);
      } else {
        IllegalStays(q, before, e);
      }
    }
  }

  lemma {:induction false} IllegalStays(q: Request, before: seq<Event>, e: Event)
    requires !Legal(q, before)
    ensures !Legal(q, before + [e])
  {
    hide Legal;
    LegalGrows(q, before, e);
  }

  /** So no accepted trace has more than nine events, and the bound of sixteen
      never refuses one. */
  lemma {:induction false} AtMostNine(q: Request, events: seq<Event>)
    requires Run(q, events).Some?
    ensures |events| <= 9 < MAX_EVENTS
  {
    hide Next, CrashAt, AllInPlace;
    AcceptedIsLegal(q, events);
    LanguageSize(events);
  }

  /** Nine is reached: a crash once settlement was admitted starts settlement anew. */
  lemma {:induction false} NineIsReached(q: Request) returns (events: seq<Event>)
    requires ValidRequest(q)
    ensures |events| == 9 && Run(q, events).Some?
  {
    var bodies := [Reserve, IntentAck(DURABLE), Dispatch, Return(SUCCESS, ""), Quiescence(true, true, true), Crash,
                   Quiescence(true, true, true), Observe(true, Some(q.target)), ReceiptAck(DURABLE)];
    events := seq(9, i requires 0 <= i < 9 => Event(i + 1, q.attemptId, q.digest, q.issued, q.start, bodies[i]));
    AcceptedIsLegal(q, events);
    CrashIsFirst(events, 5);
    forall i | 0 <= i < 9 ensures WellFormed(q, events, i) && OnTime(q, events, i) && InPlace(events, 5, i) {}
  }

  lemma {:induction false} CrashIsFirst(events: seq<Event>, c: nat)
    requires c <= |events|
    requires c < |events| ==> events[c].body.Crash?
    requires forall i | 0 <= i < c :: !events[i].body.Crash?
    ensures CrashAt(events) == c
  {
    if events != [] {
      var before := events[..|events| - 1];
      CrashIsFirst(before, if c < |before| then c else |before|);
    }
  }

  /** A dispatch stands third, after a durable intent and before any crash, while
      the wall clock has not gone back and both clocks are inside the budget.  Hence
      there is at most one. */
  lemma {:induction false} DispatchIsGuarded(q: Request, events: seq<Event>, i: nat)
    requires Run(q, events).Some? && i < |events| && events[i].body.Dispatch?
    ensures i == 2 && events[0].body.Reserve? && events[1].body == IntentAck(DURABLE)
    ensures CrashAt(events) > 2 && OnTimeUpTo(q, events, 3)
    ensures Run(q, events).value.dispatches == 1
  {
    hide Next, CrashAt, Run;
    AcceptedIsLegal(q, events);
    var c := CrashAt(events);
    assert InPlace(events, c, i);
    LanguageSize(events);
    assert InPlace(events, c, 0) && InPlace(events, c, 1);
  }

  // ----- verdicts -----

  /** What every report of a relation rests on: the last three events are a
      quiescence, an observation and a durable receipt, and the clocks were in order
      throughout. */
  predicate Settles(q: Request, events: seq<Event>) {
    var n := |events|;
    && n >= 3
    && events[n - 1].body == ReceiptAck(DURABLE)
    && events[n - 2].body.Observe?
    && events[n - 3].body == Quiescence(true, true, true)
    && OnTimeUpTo(q, events, n)
  }

  predicate Succeeded(events: seq<Event>) {
    |events| > 3 && events[3].body.Return? && events[3].body.outcome == SUCCESS
  }

  /** A relation is reported for exactly the settled traces that end in an observation
      of such bytes; and if the compare-and-swap had reported success, of no others
      than the target's. */
  lemma {:induction false} VerdictIs(q: Request, events: seq<Event>)
    requires Run(q, events).Some?
    ensures var verdict, n := Classify(Run(q, events).value), |events|;
            && (verdict == NEW_NO_EFFECT <==> events == [])
            && (verdict == TARGET_OBSERVED
                <==> Settles(q, events) && events[n - 2].body == Observe(true, Some(q.target)))
            && (verdict == BASELINE_OBSERVED
                <==> Settles(q, events) && events[n - 2].body == Observe(true, Some(q.baseline)) && q.baseline != q.target
                     && !Succeeded(events))
            && (verdict == FOREIGN_OBSERVED
                <==> Settles(q, events) && events[n - 2].body.ok && events[n - 2].body.raw.Some?
                     && events[n - 2].body.raw.value !in {q.target, q.baseline} && !Succeeded(events))
  {
    hide Next, CrashAt, Run, OnTimeUpTo;
    AcceptedIsLegal(q, events);
    LanguageSize(events);
    if |events| >= 3 {
      Ending(q, events);
      assert WellFormed(q, events, |events| - 2);
    }
    if events == [] {} else { assert InPlace(events, CrashAt(events), 0); }
  }

  /** What the state shows as observed, by the bytes. */
  lemma {:induction false} ObservedIs(q: Request, events: seq<Event>, i: nat)
    requires Run(q, events).Some? && i < |events| && events[i].body.Observe?
    ensures var observed, body := Run(q, events).value.observed, events[i].body;
            && (observed == Some(TARGET) <==> body == Observe(true, Some(q.target)))
            && (observed == Some(BASELINE) <==> body == Observe(true, Some(q.baseline)) && q.baseline != q.target)
            && (observed == Some(FOREIGN) <==> body.ok && body.raw.Some? && body.raw.value !in {q.target, q.baseline})
            && (observed == Some(UNKNOWN) <==> !body.ok)
  {
    hide Next, CrashAt, Run, OnTimeUpTo;
    AcceptedIsLegal(q, events);
    LanguageSize(events);
    assert InPlace(events, CrashAt(events), i) && WellFormed(q, events, i);
  }

  /** An attempt in which nothing goes wrong. */
  lemma {:induction false} UndisturbedAttempt(q: Request) returns (events: seq<Event>)
    requires ValidRequest(q)
    ensures |events| == 7 && events[5].body == Observe(true, Some(q.target))
    ensures Run(q, events)
            == Some(State(TERMINAL, 1, Some(SUCCESS), Some(TARGET), true, true, false, [], q.issued, q.start))
    ensures Classify(Run(q, events).value) == TARGET_OBSERVED
  {
    hide Next, Run;
    var bodies := [Reserve, IntentAck(DURABLE), Dispatch, Return(SUCCESS, ""), Quiescence(true, true, true),
                   Observe(true, Some(q.target)), ReceiptAck(DURABLE)];
    events := seq(7, i requires 0 <= i < 7 => Event(i + 1, q.attemptId, q.digest, q.issued, q.start, bodies[i]));
    AcceptedIsLegal(q, events);
    CrashIsFirst(events, 7);
    forall i | 0 <= i < 7 ensures WellFormed(q, events, i) && OnTime(q, events, i) && InPlace(events, 7, i) {}
  }

  // ----- why an attempt is poisoned -----

  predicate RolledBack(q: Request, events: seq<Event>, i: nat)
    requires i < |events|
  {
    events[i].wall < if i == 0 then q.issued else events[i - 1].wall
  }

  predicate Expired(q: Request, events: seq<Event>, i: nat)
    requires i < |events|
  {
    events[i].wall > q.expires || events[i].mono - q.start > q.expires - q.issued
  }

  predicate Fails(e: Event) {
    e.body.ReceiptAck? && e.body.durability != DURABLE
  }

  predicate Interrupts(events: seq<Event>, i: nat, k: nat)
    requires i < |events| && k < |events|
  {
    i < k && events[i].body.Observe? && events[k].body.Crash?
  }

  predicate Contradicts(q: Request, events: seq<Event>, i: nat, k: nat)
    requires i < |events| && k < |events|
  {
    i < k && events[i].body.Return? && events[i].body.outcome == SUCCESS
    && events[k].body.Observe? && events[k].body != Observe(true, Some(q.target))
  }

  predicate RolledBackBefore(q: Request, events: seq<Event>) {
    exists i | 0 <= i < |events| :: RolledBack(q, events, i)
  }

  predicate ExpiredBefore(q: Request, events: seq<Event>) {
    exists i | 0 <= i < |events| :: Expired(q, events, i)
  }

  predicate InterruptedBefore(events: seq<Event>) {
    exists i, k | 0 <= i < |events| && 0 <= k < |events| :: Interrupts(events, i, k)
  }

  predicate ContradictedBefore(q: Request, events: seq<Event>) {
    exists i, k | 0 <= i < |events| && 0 <= k < |events| :: Contradicts(q, events, i, k)
  }

  predicate FailedBefore(events: seq<Event>) {
    exists i | 0 <= i < |events| :: Fails(events[i])
  }

  predicate Reasons(q: Request, events: seq<Event>, poison: seq<Reason>) {
    && (WALL_CLOCK_ROLLBACK in poison <==> RolledBackBefore(q, events))
    && (EXPIRED in poison <==> ExpiredBefore(q, events))
    && (INTENT_DURABILITY_UNPROVEN in poison <==> IntentFailed(events))
    && (SETTLEMENT_PUBLICATION_INTERRUPTED in poison <==> InterruptedBefore(events))
    && (SUCCESS_OBSERVATION_CONTRADICTION in poison <==> ContradictedBefore(q, events))
    && (SETTLEMENT_DURABILITY_UNPROVEN in poison <==> FailedBefore(events))
  }

  lemma {:induction false} RollbackGrows(q: Request, before: seq<Event>, e: Event)
    ensures RolledBackBefore(q, before + [e]) <==> RolledBackBefore(q, before) || e.wall < WallBefore(q, before, |before|)
  {
    var n, events := |before|, before + [e];
    forall i | 0 <= i < n ensures RolledBack(q, events, i) <==> RolledBack(q, before, i) {}
    assert RolledBack(q, events, n) <==> e.wall < WallBefore(q, before, n);
  }

  lemma {:induction false} ExpiryGrows(q: Request, before: seq<Event>, e: Event)
    ensures ExpiredBefore(q, before + [e])
            <==> ExpiredBefore(q, before) || e.wall > q.expires || e.mono - q.start > q.expires - q.issued
  {
    var n, events := |before|, before + [e];
    forall i | 0 <= i < n ensures Expired(q, events, i) <==> Expired(q, before, i) {}
    assert Expired(q, events, n) <==> e.wall > q.expires || e.mono - q.start > q.expires - q.issued;
  }

  lemma {:induction false} FailureGrows(before: seq<Event>, e: Event)
    ensures FailedBefore(before + [e]) <==> FailedBefore(before) || Fails(e)
  {
    var n, events := |before|, before + [e];
    assert events[n] == e;
    forall i | 0 <= i < n ensures events[i] == before[i] {}
    if FailedBefore(before) {
      var i :| 0 <= i < n && Fails(before[i]);
      assert Fails(events[i]);
    }
  }

  predicate ObservedBefore(events: seq<Event>) {
    exists i | 0 <= i < |events| :: events[i].body.Observe?
  }

  predicate SuccessBefore(events: seq<Event>) {
    exists i | 0 <= i < |events| :: events[i].body.Return? && events[i].body.outcome == SUCCESS
  }

  lemma {:induction false} InterruptionGrows(before: seq<Event>, e: Event)
    ensures InterruptedBefore(before + [e]) <==> InterruptedBefore(before) || (e.body.Crash? && ObservedBefore(before))
  {
    var n, events := |before|, before + [e];
    forall i, k | 0 <= i < n && 0 <= k < n ensures Interrupts(events, i, k) <==> Interrupts(before, i, k) {}
    if InterruptedBefore(events) {
      var i, k :| 0 <= i <= n && 0 <= k <= n && Interrupts(events, i, k);
      if k < n { assert Interrupts(before, i, k); } else { assert before[i] == events[i]; }
    }
    if e.body.Crash? && ObservedBefore(before) {
      var i :| 0 <= i < n && before[i].body.Observe?;
      assert Interrupts(events, i, n);
    }
    if InterruptedBefore(before) {
      var i, k :| 0 <= i < n && 0 <= k < n && Interrupts(before, i, k);
      assert Interrupts(events, i, k);
    }
  }

  lemma {:induction false} ContradictionGrows(q: Request, before: seq<Event>, e: Event)
    ensures ContradictedBefore(q, before + [e])
            <==> ContradictedBefore(q, before)
                 || (e.body.Observe? && e.body != Observe(true, Some(q.target)) && SuccessBefore(before))
  {
    var n, events := |before|, before + [e];
    forall i, k | 0 <= i < n && 0 <= k < n ensures Contradicts(q, events, i, k) <==> Contradicts(q, before, i, k) {}
    if ContradictedBefore(q, events) {
      var i, k :| 0 <= i <= n && 0 <= k <= n && Contradicts(q, events, i, k);
      if k < n { assert Contradicts(q, before, i, k); } else { assert before[i] == events[i]; }
    }
    if e.body.Observe? && e.body != Observe(true, Some(q.target)) && SuccessBefore(before) {
      var i :| 0 <= i < n && before[i].body.Return? && before[i].body.outcome == SUCCESS;
      assert Contradicts(q, events, i, n);
    }
    if ContradictedBefore(q, before) {
      var i, k :| 0 <= i < n && 0 <= k < n && Contradicts(q, before, i, k);
      assert Contradicts(q, events, i, k);
    }
  }

  /** What a legal trace has had of observations and reported successes. */
  lemma {:induction false} HistoryFacts(q: Request, events: seq<Event>)
    requires Run(q, events).Some?
    ensures var st := Run(q, events).value;
            && (st.observed.Some? <==> ObservedBefore(events))
            && (st.outcome == Some(SUCCESS) <==> SuccessBefore(events))
            && st.wall == WallBefore(q, events, |events|)
  {
    hide Next, Run, CrashAt, OnTimeUpTo;
    AcceptedIsLegal(q, events);
    LanguageSize(events);
    var c, o := CrashAt(events), ObservedAt(events);
    forall i | 0 <= i < |events|
      ensures events[i].body.Observe? ==> o < |events|
      ensures events[i].body.Return? ==> i == 3
    {
      assert InPlace(events, c, i);
    }
    if o < |events| {
      assert InPlace(events, c, o);
      assert events[o].body.Observe?;
    }
    if OutcomeOf(events) == Some(SUCCESS) { assert events[3].body.Return?; }
  }

  /** Each reason to retain an attempt as unknown is given exactly when its occasion
      is in the trace. */
  lemma {:induction false} ReasonsAre(q: Request, events: seq<Event>)
    requires Run(q, events).Some?
    ensures Reasons(q, events, Run(q, events).value.poison)
  {
    if events != [] {
      var before, e := events[..|events| - 1], events[|events| - 1];
      assert events == before + [e];
      ReasonsAre(q, before);
      HistoryFacts(q, before);
      AcceptedIsLegal(q, events);
      var st := Run(q, before).value;
      assert Next(q, st, |before|, e).Some?;
      ReasonTaken(q, before, e, st);
    }
  }

  lemma {:induction false} ReasonTaken(q: Request, before: seq<Event>, e: Event, st: State)
    requires Next(q, st, |before|, e).Some? && Reasons(q, before, st.poison)
    requires st.observed.Some? <==> ObservedBefore(before)
    requires st.outcome == Some(SUCCESS) <==> SuccessBefore(before)
    requires st.wall == WallBefore(q, before, |before|) && InLanguage(before + [e])
    ensures Reasons(q, before + [e], Next(q, st, |before|, e).value.poison)
  {
    hide Next, RolledBackBefore, ExpiredBefore, InterruptedBefore, ContradictedBefore, FailedBefore, ObservedBefore, SuccessBefore;
    hide CrashAt, InLanguage, IntentFailed;
    RollbackGrows(q, before, e);
    ExpiryGrows(q, before, e);
    FailureGrows(before, e);
    InterruptionGrows(before, e);
    ContradictionGrows(q, before, e);
    PlaceFacts(q, before, e);
    IntentFailedGrows(before, e);
    PoisonAdded(q, st, |before|, e);
  }

  /** What one event adds to the reasons, its clocks aside. */
  lemma {:induction false} PoisonAdded(q: Request, st: State, index: nat, e: Event)
    requires Next(q, st, index, e).Some?
    ensures forall reason :: reason in Next(q, st, index, e).value.poison <==>
              || reason in st.poison
              || (reason == WALL_CLOCK_ROLLBACK && e.wall < st.wall)
              || (reason == EXPIRED && (e.wall > q.expires || e.mono - q.start > q.expires - q.issued))
              || (reason == INTENT_DURABILITY_UNPROVEN && e.body.IntentAck? && e.body.durability != DURABLE)
              || (reason == SETTLEMENT_PUBLICATION_INTERRUPTED && e.body.Crash? && st.observed.Some?)
              || (reason == SUCCESS_OBSERVATION_CONTRADICTION && e.body.Observe? && e.body != Observe(true, Some(q.target))
                  && st.outcome == Some(SUCCESS))
              || (reason == SETTLEMENT_DURABILITY_UNPROVEN && Fails(e))
  {
    hide Bound, Clocked;
    ClockReasons(q, st, e);
  }

  lemma {:induction false} ClockReasons(q: Request, st: State, e: Event)
    ensures Clocked(q, st, e) == st.(poison := Clocked(q, st, e).poison, wall := e.wall, mono := e.mono)
    ensures forall reason :: reason in Clocked(q, st, e).poison <==>
              || reason in st.poison
              || (reason == WALL_CLOCK_ROLLBACK && e.wall < st.wall)
              || (reason == EXPIRED && (e.wall > q.expires || e.mono - q.start > q.expires - q.issued))
  {}

  /** How a legal trace with a receipt ends. */
  lemma {:induction false} Ending(q: Request, events: seq<Event>)
    requires Legal(q, events) && |events| >= 3
    ensures var n := |events|;
            && (events[n - 1].body.ReceiptAck? <==> ObservedAt(events) + 1 == n - 1 && events[n - 1].body.ReceiptAck?)
            && (ObservedAt(events) + 1 < n ==> n - 1 == ObservedAt(events) + 1)
            && (events[n - 1].body.ReceiptAck? ==>
                  && events[n - 2].body.Observe? && events[n - 3].body == Quiescence(true, true, true)
                  && !IntentFailed(events) && !(CrashAt(events) == 6 < n))
  {
    hide CrashAt;
    var n, c := |events|, CrashAt(events);
    LanguageSize(events);
    assert InPlace(events, c, n - 1) && InPlace(events, c, n - 2) && InPlace(events, c, n - 3);
    assert WellFormed(q, events, n - 3);
  }

  /** A reported success is never contradicted by the verdict. */
  lemma {:induction false} SuccessIsNeverBaselineOrForeign(q: Request, events: seq<Event>)
    requires Run(q, events).Some? && OutcomeOf(events) == Some(SUCCESS)
    ensures Classify(Run(q, events).value) !in {BASELINE_OBSERVED, FOREIGN_OBSERVED}
  {
    hide Run, Classify, OnTimeUpTo;
    VerdictIs(q, events);
  }

  /** The target seen without a crash was written by the one dispatch. */
  lemma {:induction false} UncrashedTargetWasDispatched(q: Request, events: seq<Event>)
    requires Run(q, events).Some? && Classify(Run(q, events).value) == TARGET_OBSERVED
    requires !Run(q, events).value.crashed
    ensures |events| == 7 && events[2].body.Dispatch? && Run(q, events).value.dispatches == 1
  {
    hide Next, Run, Classify, CrashAt, OnTimeUpTo;
    VerdictIs(q, events);
    AcceptedIsLegal(q, events);
    LanguageSize(events);
    assert InPlace(events, CrashAt(events), |events| - 1);
    assert InPlace(events, CrashAt(events), 2);
  }

  lemma {:induction false} NextKeepsPoison(q: Request, st: State, index: nat, e: Event)
    requires st.poison != [] && Next(q, st, index, e).Some?
    ensures Next(q, st, index, e).value.poison != []
  {}

  lemma {:induction false} PoisonStays(q: Request, events: seq<Event>, k: nat)
    requires k <= |events| && Run(q, events).Some?
    requires Run(q, events[..k]).Some? && Run(q, events[..k]).value.poison != []
    ensures Run(q, events).value.poison != []
  {
    hide Next;
    if k == |events| {
      assert events[..k] == events;
    } else {
      var before := events[..|events| - 1];
      assert before[..k] == events[..k];
      PoisonStays(q, before, k);
      NextKeepsPoison(q, Run(q, before).value, |before|, events[|before|]);
    }
  }

  /** Once poisoned, an attempt is UNKNOWN_RETAIN in every extension. */
  lemma {:induction false} PoisonSticks(q: Request, events: seq<Event>, k: nat)
    requires k <= |events| && Run(q, events).Some?
    requires Run(q, events[..k]).Some? && Run(q, events[..k]).value.poison != []
    ensures Classify(Run(q, events).value) == UNKNOWN_RETAIN
  {
    PoisonStays(q, events, k);
    hide Run;
    hide OnTimeUpTo;
    VerdictIs(q, events);
    if events == [] { NothingYet(q, events); }
  }
}
