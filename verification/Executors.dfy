/** Any number of local executors on one create-only journal, interleaved in any
    way, dying anywhere, with clocks that show anything
    (layout-migration-exact-local-restore.py).

    An executor takes one step of execute at a time.  What clocks, unit and identity
    readings, the authorizer and the command tell it is part of the step; what it
    checks, it checks.  */
module Executors {
  import opened Common
  import opened RestorePlan
  import opened ServiceWorld

  datatype Request = Request(step: Step, binding: string)

  /** What is read and later read again: the executor's own source, package, boot and
      process, the unit's baseline record, and the unit. */
  datatype Reading = Reading(identity: string, original: Service, unit: UnitState)

  datatype Grant = Grant(
    request: Request, executor: string, before: UnitState, after: Source, issuedAt: int, expiresAt: int)
  datatype Intent = Intent(request: Request, executor: nat, found: Reading, grant: Grant)
  datatype Outcome = Outcome(intent: Intent, after: UnitState, startedAt: int, finishedAt: int)

  datatype Ending = CONFIRMED | UNKNOWN_RETAIN | REFUSED | DEAD

  datatype Phase =
    | Fresh
    | Ready(request: Request, identity: string)
    | Authorized(now: int, intent: Intent)
    | Intended(now: int, intent: Intent)
    | Checked(check: int, intent: Intent)
    | Started(started: int, intent: Intent)
    | Commanded(started: int, intent: Intent)
    | Ended(how: Ending)

  datatype Command = Command(step: Step, executor: nat, startedAt: int)

  datatype System = System(
    guests: string, phases: map<nat, Phase>, intents: map<Step, Intent>, outcomes: map<Step, Outcome>,
    commands: seq<Command>)

  datatype Action =
    | Begin(request: Request, identity: string, unit: UnitState)      // read the journal
    | Authorize(now: int, found: Reading, grant: Grant)               // first clock, readings, authorization
    | WriteIntent(acked: bool)
    | Check(check: int, again: Reading, repeated: Grant)              // second clock, everything read again
    | Start(started: int)                                             // third clock
    | Run(result: bool)                                               // the command; its result may be unknown
    | WriteOutcome(finished: int, identity: string, after: UnitState, acked: bool)
    | Die

  function StartState(guests: string): System {
    System(guests, map[], map[], map[], [])
  }

  function PhaseOf(s: System, e: nat): Phase {
    if e in s.phases then s.phases[e] else Fresh
  }

  function At(s: System, e: nat, phase: Phase): System {
    s.(phases := s.phases[e := phase])
  }

  /** What the unit must show before the command may run. */
  predicate MayAct(guests: string, step: Step, found: Reading) {
    var now := found.unit.service;
    && !found.original.masked && (step.op == START ==> found.original.active)
    && (match step.op case UNMASK => now.masked case START => !now.active && !now.masked)
    && (if step.spot.unit == guests then now.active == found.original.active else !now.active)
  }

  /** What it must show after it. */
  predicate Acted(intent: Intent, after: UnitState) {
    var op, before := intent.request.step.op, intent.found.unit;
    && !after.service.masked
    && (if op == START then after.service.active else after.service.active == before.service.active)
    && after.source == intent.grant.after && after.source.vendor == before.source.vendor
    && (op == START ==> after.source == before.source)
  }

  /** What an executor is told that finds the step on record. */
  function Recorded(s: System, request: Request, identity: string, unit: UnitState): Ending {
    var step := request.step;
    if step !in s.intents || s.intents[step].request != request || s.intents[step].found.identity != identity then REFUSED
    else if step !in s.outcomes then UNKNOWN_RETAIN
    else
      var o := s.outcomes[step];
      if o.intent == s.intents[step] && o.intent.grant.issuedAt <= o.startedAt <= o.intent.grant.expiresAt
         && o.startedAt <= o.finishedAt && o.after == unit && o.after.source == o.intent.grant.after
      then CONFIRMED else REFUSED
  }

  /** One step of executor e; a step its phase does not offer changes nothing. */
  function Next(s: System, e: nat, action: Action): System {
    var phase := PhaseOf(s, e);
    match action
    case Die => At(s, e, Ended(DEAD))
    case Begin(request, identity, unit) =>
      if !phase.Fresh? then s
      else if request.step.op == START && request.step.spot.unit == s.guests then At(s, e, Ended(REFUSED))
      else if request.step !in s.intents && request.step !in s.outcomes then At(s, e, Ready(request, identity))
      else At(s, e, Ended(Recorded(s, request, identity, unit)))
    case Authorize(now, found, grant) =>
      if !phase.Ready? then s
      else if found.identity == phase.identity && MayAct(s.guests, phase.request.step, found)
              && grant.request == phase.request && grant.executor == found.identity && grant.before == found.unit
              && grant.issuedAt <= now <= grant.expiresAt && 0 < grant.expiresAt - grant.issuedAt <= 300
      then At(s, e, Authorized(now, Intent(phase.request, e, found, grant))) else At(s, e, Ended(REFUSED))
    case WriteIntent(acked) =>
      if !phase.Authorized? then s
      else if phase.intent.request.step in s.intents then At(s, e, Ended(REFUSED))
      else
        var stored := s.(intents := s.intents[phase.intent.request.step := phase.intent]);
        At(stored, e, if acked then Intended(phase.now, phase.intent) else Ended(REFUSED))
    case Check(check, again, repeated) =>
      if !phase.Intended? then s
      else if phase.now <= check <= phase.intent.grant.expiresAt
              && again == phase.intent.found && repeated == phase.intent.grant
              && phase.intent.request.step in s.intents && s.intents[phase.intent.request.step] == phase.intent
      then At(s, e, Checked(check, phase.intent)) else At(s, e, Ended(REFUSED))
    case Start(started) =>
      if !phase.Checked? then s
      else if phase.check <= started <= phase.intent.grant.expiresAt then At(s, e, Started(started, phase.intent))
      else At(s, e, Ended(REFUSED))
    case Run(result) =>
      if !phase.Started? then s
      else
        var ran := s.(commands := s.commands + [Command(phase.intent.request.step, e, phase.started)]);
        At(ran, e, if result then Commanded(phase.started, phase.intent) else Ended(REFUSED))
    case WriteOutcome(finished, identity, after, acked) =>
      if !phase.Commanded? then s
      else
        var step := phase.intent.request.step;
        if !Acted(phase.intent, after) || identity != phase.intent.found.identity || finished < phase.started
           || step !in s.intents || s.intents[step] != phase.intent || step in s.outcomes
        then At(s, e, Ended(REFUSED))
        else
          At(s.(outcomes := s.outcomes[step := Outcome(phase.intent, after, phase.started, finished)]), e,
             Ended(if acked then CONFIRMED else REFUSED))
  }

  // ----- the invariant -----

  /** The executor has an intent of its own on record and has not run its command. */
  predicate Armed(phase: Phase) {
    phase.Intended? || phase.Checked? || phase.Started?
  }

  /** What an executor has made sure of before it writes its intent. */
  predicate IntentOk(guests: string, e: nat, i: Intent) {
    var step, now, g := i.request.step, i.found.unit.service, i.grant;
    && i.executor == e && g.request == i.request && g.executor == i.found.identity && g.before == i.found.unit
    && 0 < g.expiresAt - g.issuedAt <= 300
    && !(step.op == START && step.spot.unit == guests)
    && !i.found.original.masked
    && (step.op == UNMASK ==> now.masked)
    && (step.op == START ==> i.found.original.active && !now.active && !now.masked)
    && (step.spot.unit == guests ==> now.active == i.found.original.active)
    && (step.spot.unit != guests ==> !now.active)
  }

  predicate PhaseOk(guests: string, e: nat, phase: Phase) {
    match phase
    case Ready(request, _) => !(request.step.op == START && request.step.spot.unit == guests)
    case Authorized(now, i) => IntentOk(guests, e, i) && i.grant.issuedAt <= now <= i.grant.expiresAt
    case Intended(now, i) => IntentOk(guests, e, i) && i.grant.issuedAt <= now <= i.grant.expiresAt
    case Checked(check, i) => IntentOk(guests, e, i) && i.grant.issuedAt <= check <= i.grant.expiresAt
    case Started(started, i) => IntentOk(guests, e, i) && i.grant.issuedAt <= started <= i.grant.expiresAt
    case Commanded(started, i) => IntentOk(guests, e, i) && i.grant.issuedAt <= started <= i.grant.expiresAt
    case _ => true
  }

  ghost predicate Owns(s: System, intent: Intent) {
    intent.request.step in s.intents && s.intents[intent.request.step] == intent
  }

  ghost predicate Unrun(s: System, step: Step) {
    step !in s.outcomes && forall i | 0 <= i < |s.commands| :: s.commands[i].step != step
  }

  ghost predicate ExecutorOk(s: System, e: nat) {
    var phase := PhaseOf(s, e);
    && PhaseOk(s.guests, e, phase)
    && (Armed(phase) || phase.Commanded? ==> Owns(s, phase.intent))
    && (Armed(phase) ==> Unrun(s, phase.intent.request.step))
    && (phase.Commanded? ==> phase.intent.request.step !in s.outcomes)
  }

  ghost predicate CommandOk(s: System, i: nat)
    requires i < |s.commands|
  {
    var c := s.commands[i];
    && c.step in s.intents && s.intents[c.step].executor == c.executor
    && s.intents[c.step].grant.issuedAt <= c.startedAt <= s.intents[c.step].grant.expiresAt
    && forall k | 0 <= k < i :: s.commands[k].step != c.step
  }

  ghost predicate OutcomeOk(s: System, step: Step)
    requires step in s.outcomes
  {
    var o := s.outcomes[step];
    && step in s.intents && o.intent == s.intents[step]
    && o.intent.grant.issuedAt <= o.startedAt <= o.intent.grant.expiresAt && o.startedAt <= o.finishedAt
    && Acted(o.intent, o.after)
  }

  ghost predicate RecordOk(s: System, step: Step)
    requires step in s.intents
  {
    var i := s.intents[step];
    i.request.step == step && IntentOk(s.guests, i.executor, i)
  }

  ghost predicate Inv(s: System) {
    && (forall e: nat :: ExecutorOk(s, e))
    && (forall i | 0 <= i < |s.commands| :: CommandOk(s, i))
    && (forall step | step in s.intents :: RecordOk(s, step))
    && (forall step | step in s.outcomes :: OutcomeOk(s, step))
  }

  lemma {:induction false} StartHolds(guests: string)
    ensures Inv(StartState(guests))
  {}

  /** What one step can change at all: its own phase, and one of the three records. */
  lemma {:induction false} StepShape(s: System, e: nat, action: Action)
    ensures var t, phase := Next(s, e, action), PhaseOf(s, e);
            && t.guests == s.guests
            && (forall other: nat | other != e :: PhaseOf(t, other) == PhaseOf(s, other))
            && (t.intents == s.intents
                || (phase.Authorized? && phase.intent.request.step !in s.intents
                    && t.intents == s.intents[phase.intent.request.step := phase.intent]))
            && (t.outcomes == s.outcomes
                || (phase.Commanded? && phase.intent.request.step !in s.outcomes
                    && t.outcomes.Keys == s.outcomes.Keys + {phase.intent.request.step}
                    && forall step | step in s.outcomes :: t.outcomes[step] == s.outcomes[step]))
            && (t.commands == s.commands
                || (phase.Started? && t.commands == s.commands + [Command(phase.intent.request.step, e, phase.started)]
                    && t.intents == s.intents && t.outcomes == s.outcomes))
  {
    GuestsStay(s, e, action);
    OtherPhasesStay(s, e, action);
    IntentsMove(s, e, action);
    OutcomesMove(s, e, action);
    CommandsMove(s, e, action);
    hide Next, PhaseOf;
  }

  lemma {:induction false} OtherPhasesStay(s: System, e: nat, action: Action)
    ensures forall other: nat | other != e :: PhaseOf(Next(s, e, action), other) == PhaseOf(s, other)
  {
    hide IntentOk, MayAct, Acted, Recorded;
  }

  lemma {:induction false} IntentsMove(s: System, e: nat, action: Action)
    ensures var t, phase := Next(s, e, action), PhaseOf(s, e);
            t.intents == s.intents
            || (phase.Authorized? && phase.intent.request.step !in s.intents
                && t.intents == s.intents[phase.intent.request.step := phase.intent])
  {
    hide IntentOk, MayAct, Acted, Recorded;
  }

  lemma {:induction false} OutcomesMove(s: System, e: nat, action: Action)
    ensures var t, phase := Next(s, e, action), PhaseOf(s, e);
            t.outcomes == s.outcomes
            || (phase.Commanded? && phase.intent.request.step !in s.outcomes
                && t.outcomes.Keys == s.outcomes.Keys + {phase.intent.request.step}
                && forall step | step in s.outcomes :: t.outcomes[step] == s.outcomes[step])
  {
    hide IntentOk, MayAct, Acted, Recorded;
  }

  lemma {:induction false} CommandsMove(s: System, e: nat, action: Action)
    ensures var t, phase := Next(s, e, action), PhaseOf(s, e);
            t.commands == s.commands
            || (phase.Started? && t.commands == s.commands + [Command(phase.intent.request.step, e, phase.started)]
                && t.intents == s.intents && t.outcomes == s.outcomes)
  {
    hide IntentOk, MayAct, Acted, Recorded;
  }

  /** Another executor's step cannot disturb one that owns its intent. */
  lemma {:induction false} OthersUndisturbed(s: System, e: nat, action: Action, other: nat)
    requires Inv(s) && other != e
    ensures ExecutorOk(Next(s, e, action), other)
  {
    hide Next, PhaseOf, IntentOk;
    assert ExecutorOk(s, e) && ExecutorOk(s, other);
    StepShape(s, e, action);
    OwnIntent(s, e);
    OwnIntent(s, other);
  }

  lemma {:induction false} OwnIntent(s: System, e: nat)
    requires ExecutorOk(s, e)
    ensures Armed(PhaseOf(s, e)) || PhaseOf(s, e).Commanded? ==> PhaseOf(s, e).intent.executor == e
  {}

  lemma {:induction false} RecordsHold(s: System, e: nat, action: Action, step: Step)
    requires ExecutorOk(s, e) && step in Next(s, e, action).intents
    requires step in s.intents ==> RecordOk(s, step)
    ensures RecordOk(Next(s, e, action), step)
  {
    hide MayAct, Acted, Recorded;
  }

  lemma {:induction false} PhaseHolds(s: System, e: nat, action: Action)
    requires PhaseOk(s.guests, e, PhaseOf(s, e))
    ensures PhaseOk(s.guests, e, PhaseOf(Next(s, e, action), e))
  {
    hide Acted, Recorded;
  }

  /** How an executor comes to own an intent and keeps it until its command has run. */
  lemma {:induction false} PhaseMoves(s: System, e: nat, action: Action)
    ensures var t, was, now := Next(s, e, action), PhaseOf(s, e), PhaseOf(Next(s, e, action), e);
            && (Armed(now) ==>
                  (|| (Armed(was) && now.intent == was.intent && t.commands == s.commands)
                   || (was.Authorized? && now.intent == was.intent && was.intent.request.step !in s.intents
                       && t.intents == s.intents[was.intent.request.step := was.intent])))
            && (now.Commanded? ==> (Armed(was) || was.Commanded?) && now.intent == was.intent && t.outcomes == s.outcomes)
            && (was.Commanded? && !now.Commanded? ==> now.Ended?)
  {
    hide IntentOk, MayAct, Acted, Recorded;
  }

  lemma {:induction false} SelfHolds(s: System, e: nat, action: Action)
    requires Inv(s)
    ensures ExecutorOk(Next(s, e, action), e)
  {
    hide Next, IntentOk, PhaseOf, PhaseOk;
    assert ExecutorOk(s, e);
    PhaseHolds(s, e, action);
    PhaseMoves(s, e, action);
    StepShape(s, e, action);
    forall i | 0 <= i < |s.commands| ensures s.commands[i].step in s.intents {
      assert CommandOk(s, i);
    }
    forall step | step in s.outcomes ensures step in s.intents {
      assert OutcomeOk(s, step);
    }
  }

  lemma {:induction false} OldCommandHolds(s: System, e: nat, action: Action, i: nat)
    requires i < |s.commands| && CommandOk(s, i)
    ensures i < |Next(s, e, action).commands| && CommandOk(Next(s, e, action), i)
  {
    hide IntentOk, MayAct, Acted, Recorded;
  }

  lemma {:induction false} NewCommandHolds(s: System, e: nat, action: Action, i: nat)
    requires ExecutorOk(s, e) && |s.commands| <= i < |Next(s, e, action).commands|
    ensures CommandOk(Next(s, e, action), i)
  {
    hide MayAct, Acted, Recorded;
  }

  lemma {:induction false} OutcomesHold(s: System, e: nat, action: Action, step: Step)
    requires ExecutorOk(s, e) && step in Next(s, e, action).outcomes
    requires step in s.outcomes ==> OutcomeOk(s, step)
    ensures OutcomeOk(Next(s, e, action), step)
  {
    hide IntentOk, MayAct, Acted, Recorded;
  }

  lemma {:induction false} StepHolds(s: System, e: nat, action: Action)
    requires Inv(s)
    ensures Inv(Next(s, e, action))
  {
    hide Next, ExecutorOk, CommandOk, OutcomeOk, RecordOk;
    assert ExecutorOk(s, e);
    var t := Next(s, e, action);
    forall i | 0 <= i < |t.commands| ensures CommandOk(t, i) {
      if i < |s.commands| { OldCommandHolds(s, e, action, i); } else { NewCommandHolds(s, e, action, i); }
    }
    forall step | step in t.intents ensures RecordOk(t, step) {
      RecordsHold(s, e, action, step);
    }
    forall step | step in t.outcomes ensures OutcomeOk(t, step) {
      OutcomesHold(s, e, action, step);
    }
    SelfHolds(s, e, action);
    forall other: nat ensures ExecutorOk(t, other) {
      if other != e { OthersUndisturbed(s, e, action, other); }
    }
  }

  // ----- whole runs -----

  function RunAll(guests: string, schedule: seq<(nat, Action)>): System {
    if schedule == [] then StartState(guests)
    else
      var last := schedule[|schedule| - 1];
      Next(RunAll(guests, schedule[..|schedule| - 1]), last.0, last.1)
  }

  lemma {:induction false} RunHolds(guests: string, schedule: seq<(nat, Action)>)
    ensures Inv(RunAll(guests, schedule)) && RunAll(guests, schedule).guests == guests
  {
    hide Inv, Next;
    if schedule == [] {
      StartHolds(guests);
    } else {
      var before, last := RunAll(guests, schedule[..|schedule| - 1]), schedule[|schedule| - 1];
      RunHolds(guests, schedule[..|schedule| - 1]);
      StepHolds(before, last.0, last.1);
      GuestsStay(before, last.0, last.1);
    }
  }

  lemma {:induction false} GuestsStay(s: System, e: nat, action: Action)
    ensures Next(s, e, action).guests == s.guests
  {}

  /** Whatever the executors do, however they are interleaved: the command of a step
      runs at most once, only with its own executor's intent on record, and it starts
      inside the grant's interval, which is five minutes at most. */
  lemma {:induction false} CommandsRunOnce(guests: string, schedule: seq<(nat, Action)>, i: nat, k: nat)
    requires i < |RunAll(guests, schedule).commands| && k < |RunAll(guests, schedule).commands|
    ensures var s := RunAll(guests, schedule);
            var c := s.commands[i];
            && (i != k ==> c.step != s.commands[k].step)
            && c.step in s.intents && s.intents[c.step].executor == c.executor && s.intents[c.step].request.step == c.step
            && var g := s.intents[c.step].grant;
               g.issuedAt <= c.startedAt <= g.expiresAt && 0 < g.expiresAt - g.issuedAt <= 300
  {
    RunHolds(guests, schedule);
    assert CommandOk(RunAll(guests, schedule), i) && CommandOk(RunAll(guests, schedule), k);
    assert RecordOk(RunAll(guests, schedule), RunAll(guests, schedule).commands[i].step);
  }

  /** And only on a unit that its executor found as the step needs it, under a grant
      for that very request, executor and unit; pve-guests is never started, an
      originally masked unit never touched, an originally inactive one never started. */
  lemma {:induction false} CommandsFitTheirUnit(guests: string, schedule: seq<(nat, Action)>, i: nat)
    requires i < |RunAll(guests, schedule).commands|
    ensures var s := RunAll(guests, schedule);
            var step := s.commands[i].step;
            && step in s.intents
            && var intent := s.intents[step];
               var original, found, g := intent.found.original, intent.found.unit.service, intent.grant;
               && g.request == intent.request && g.executor == intent.found.identity && g.before == intent.found.unit
               && !original.masked
               && (step.op == UNMASK ==> found.masked)
               && (step.op == START ==> original.active && !found.active && !found.masked && step.spot.unit != guests)
               && (found.active ==> step.spot.unit == guests && original.active)
  {
    RunHolds(guests, schedule);
    assert CommandOk(RunAll(guests, schedule), i);
    assert RecordOk(RunAll(guests, schedule), RunAll(guests, schedule).commands[i].step);
  }

  /** An executor left alone, on a unit as the step needs it and with clocks inside
      the grant, gets through. */
  lemma {:induction false} UndisturbedExecution(
      guests: string, e: nat, request: Request, found: Reading, g: Grant, after: UnitState,
      now: int, check: int, started: int, finished: int)
    requires var step, unit := request.step, found.unit.service;
             && !found.original.masked && unit.masked == (step.op == UNMASK)
             && (step.op == START ==> found.original.active && step.spot.unit != guests)
             && unit.active == (step.spot.unit == guests && found.original.active)
    requires g == Grant(request, found.identity, found.unit, after.source, g.issuedAt, g.expiresAt)
    requires g.issuedAt <= now <= check <= started <= g.expiresAt && started <= finished && 0 < g.expiresAt - g.issuedAt <= 300
    requires !after.service.masked && after.source.vendor == found.unit.source.vendor
    requires if request.step.op == START then after.service.active && after.source == found.unit.source
             else after.service.active == found.unit.service.active
    ensures var intent := Intent(request, e, found, g);
            RunAll(guests, [(e, Begin(request, found.identity, found.unit)), (e, Authorize(now, found, g)), (e, WriteIntent(true)),
                            (e, Check(check, found, g)), (e, Start(started)), (e, Run(true)),
                            (e, WriteOutcome(finished, found.identity, after, true))])
            == System(guests, map[e := Ended(CONFIRMED)], map[request.step := intent],
                      map[request.step := Outcome(intent, after, started, finished)], [Command(request.step, e, started)])
  {
    hide RunAll, Next;
    var intent := Intent(request, e, found, g);
    var step := request.step;
    var a1 := [(e, Begin(request, found.identity, found.unit))];
    var a2 := a1 + [(e, Authorize(now, found, g))];
    var a3 := a2 + [(e, WriteIntent(true))];
    var a4 := a3 + [(e, Check(check, found, g))];
    var a5 := a4 + [(e, Start(started))];
    var a6 := a5 + [(e, Run(true))];
    var a7 := a6 + [(e, WriteOutcome(finished, found.identity, after, true))];
    assert RunAll(guests, []) == StartState(guests) by { Nothing(guests); }
    assert [] + a1 == a1;
    Unrolled(guests, [], a1[0]); Unrolled(guests, a1, a2[1]); Unrolled(guests, a2, a3[2]); Unrolled(guests, a3, a4[3]);
    Unrolled(guests, a4, a5[4]); Unrolled(guests, a5, a6[5]); Unrolled(guests, a6, a7[6]);
    Prepared(guests, e, request, found, g, now);
    CarriedOut(guests, e, intent, after, now, check, started, finished);
    assert a7 == [(e, Begin(request, found.identity, found.unit)), (e, Authorize(now, found, g)), (e, WriteIntent(true)),
                  (e, Check(check, found, g)), (e, Start(started)), (e, Run(true)),
                  (e, WriteOutcome(finished, found.identity, after, true))];
  }

  lemma {:induction false} Nothing(guests: string)
    ensures RunAll(guests, []) == StartState(guests)
  {}

  lemma {:induction false} Prepared(guests: string, e: nat, request: Request, found: Reading, g: Grant, now: int)
    requires MayAct(guests, request.step, found) && !(request.step.op == START && request.step.spot.unit == guests)
    requires g == Grant(request, found.identity, found.unit, g.after, g.issuedAt, g.expiresAt)
    requires g.issuedAt <= now <= g.expiresAt && 0 < g.expiresAt - g.issuedAt <= 300
    ensures var intent := Intent(request, e, found, g);
            var begun := Next(StartState(guests), e, Begin(request, found.identity, found.unit));
            Next(Next(begun, e, Authorize(now, found, g)), e, WriteIntent(true))
            == System(guests, map[e := Intended(now, intent)], map[request.step := intent], map[], [])
  {
    hide MayAct;
    var begun := Next(StartState(guests), e, Begin(request, found.identity, found.unit));
    assert begun.phases == map[e := Ready(request, found.identity)];
    assert Next(begun, e, Authorize(now, found, g)).phases == map[e := Authorized(now, Intent(request, e, found, g))];
  }

  lemma {:induction false} CarriedOut(
      guests: string, e: nat, intent: Intent, after: UnitState, now: int, check: int, started: int, finished: int)
    requires now <= check <= started <= intent.grant.expiresAt && started <= finished && Acted(intent, after)
    ensures var step, g := intent.request.step, intent.grant;
            var written := System(guests, map[e := Intended(now, intent)], map[step := intent], map[], []);
            var ran := Next(Next(Next(written, e, Check(check, intent.found, g)), e, Start(started)), e, Run(true));
            Next(ran, e, WriteOutcome(finished, intent.found.identity, after, true))
            == System(guests, map[e := Ended(CONFIRMED)], map[step := intent],
                      map[step := Outcome(intent, after, started, finished)], [Command(step, e, started)])
  {
    hide Acted;
    var step, g := intent.request.step, intent.grant;
    var written := System(guests, map[e := Intended(now, intent)], map[step := intent], map[], []);
    var checked := Next(written, e, Check(check, intent.found, g));
    assert checked.phases == map[e := Checked(check, intent)];
    var begun := Next(checked, e, Start(started));
    assert begun.phases == map[e := Started(started, intent)];
    var ran := Next(begun, e, Run(true));
    assert ran.phases == map[e := Commanded(started, intent)];
  }

  /** Any drift between the intent and the command ends the executor before the command:
      another reading, another grant, a clock that went back or ran out.  Any drift
      after it keeps the outcome off the record. */
  lemma {:induction false} DriftIsRefused(s: System, e: nat, check: int, again: Reading, repeated: Grant, started: int,
                                          finished: int, identity: string, after: UnitState, acked: bool)
    ensures PhaseOf(s, e).Intended? ==>
              var intent, t := PhaseOf(s, e).intent, Next(s, e, Check(check, again, repeated));
              && t.commands == s.commands
              && (again != intent.found || repeated != intent.grant || check < PhaseOf(s, e).now || check > intent.grant.expiresAt
                  ==> PhaseOf(t, e) == Ended(REFUSED))
    ensures PhaseOf(s, e).Checked? ==>
              var t := Next(s, e, Start(started));
              && t.commands == s.commands
              && (started < PhaseOf(s, e).check || started > PhaseOf(s, e).intent.grant.expiresAt ==> PhaseOf(t, e) == Ended(REFUSED))
    ensures PhaseOf(s, e).Commanded? ==>
              var intent, t := PhaseOf(s, e).intent, Next(s, e, WriteOutcome(finished, identity, after, acked));
              var op, before := intent.request.step.op, intent.found.unit;
              identity != intent.found.identity || finished < PhaseOf(s, e).started
              || after.service.masked || (op == START && (!after.service.active || after.source != before.source))
              || (op == UNMASK && after.service.active != before.service.active)
              || after.source != intent.grant.after || after.source.vendor != before.source.vendor
              ==> t.outcomes == s.outcomes && PhaseOf(t, e) == Ended(REFUSED)
  {
    hide IntentOk, MayAct, Recorded;
  }

  /** A completed step is on record for good: its unit was left as the step and the
      grant say, its command does not run again, and whoever asks for the same
      request, as the same executor and with the unit unchanged, is told so. */
  lemma {:induction false} CompletedForEver(guests: string, before: seq<(nat, Action)>, after: seq<(nat, Action)>, step: Step)
    requires step in RunAll(guests, before).outcomes
    ensures var s, t := RunAll(guests, before), RunAll(guests, before + after);
            && |s.commands| <= |t.commands|
            && (forall i | |s.commands| <= i < |t.commands| :: t.commands[i].step != step)
            && step in t.outcomes && t.outcomes[step] == s.outcomes[step]
            && var o := t.outcomes[step];
               && !o.after.service.masked && (step.op == START ==> o.after.service.active)
               && (step.op == UNMASK ==> o.after.service.active == o.intent.found.unit.service.active)
               && o.after.source == o.intent.grant.after && o.startedAt <= o.finishedAt
               && forall e: nat | PhaseOf(t, e).Fresh? ::
                    PhaseOf(Next(t, e, Begin(o.intent.request, o.intent.found.identity, o.after)), e) == Ended(CONFIRMED)
    decreases |after|
  {
    hide Inv, Next, RunAll;
    if after == [] {
      assert before + after == before;
      RunHolds(guests, before);
    } else {
      var rest, last := after[..|after| - 1], after[|after| - 1];
      CompletedForEver(guests, before, rest, step);
      RunHolds(guests, before + rest);
      Unrolled(guests, before + rest, last);
      assert before + after == before + rest + [last];
      CompletedStep(RunAll(guests, before + rest), last.0, last.1, step);
      RunHolds(guests, before + after);
    }
    ToldSo(RunAll(guests, before + after), step);
  }

  lemma {:induction false} CompletedStep(s: System, e: nat, action: Action, step: Step)
    requires Inv(s) && step in s.outcomes
    ensures var t := Next(s, e, action);
            && step in t.outcomes && t.outcomes[step] == s.outcomes[step] && s.commands <= t.commands
            && (forall i | |s.commands| <= i < |t.commands| :: t.commands[i].step != step)
  {
    hide IntentOk, MayAct, Acted, Recorded;
    assert ExecutorOk(s, e);
  }

  lemma {:induction false} ToldSo(s: System, step: Step)
    requires Inv(s) && step in s.outcomes
    ensures var o := s.outcomes[step];
            && !o.after.service.masked && (step.op == START ==> o.after.service.active)
            && (step.op == UNMASK ==> o.after.service.active == o.intent.found.unit.service.active)
            && o.after.source == o.intent.grant.after && o.startedAt <= o.finishedAt
            && forall e: nat | PhaseOf(s, e).Fresh? ::
                 PhaseOf(Next(s, e, Begin(o.intent.request, o.intent.found.identity, o.after)), e) == Ended(CONFIRMED)
  {
    assert OutcomeOk(s, step) && RecordOk(s, step);
  }

  /** An intent whose executor ended without an outcome on record. */
  predicate Abandoned(s: System, step: Step) {
    step in s.intents && step !in s.outcomes && PhaseOf(s, s.intents[step].executor).Ended?
  }

  lemma {:induction false} AbandonedStep(s: System, e: nat, action: Action, step: Step)
    requires Inv(s) && Abandoned(s, step)
    ensures var t := Next(s, e, action);
            && Abandoned(t, step) && t.intents[step] == s.intents[step]
            && (forall i | |s.commands| <= i < |t.commands| :: t.commands[i].step != step)
  {
    hide Next, IntentOk, PhaseOf;
    assert ExecutorOk(s, e);
    OwnIntent(s, e);
    StepShape(s, e, action);
    if PhaseOf(s, e).Ended? { EndedStays(s, e, action); }
  }

  lemma {:induction false} EndedStays(s: System, e: nat, action: Action)
    requires PhaseOf(s, e).Ended?
    ensures PhaseOf(Next(s, e, action), e).Ended?
  {}

  /** It stays so for ever: no outcome appears, no command for the step runs any
      more, and whoever asks again as the same executor for the same request is told
      UNKNOWN_RETAIN, anyone else is refused. */
  lemma {:induction false} AbandonedForEver(guests: string, before: seq<(nat, Action)>, after: seq<(nat, Action)>, step: Step)
    requires Abandoned(RunAll(guests, before), step)
    ensures var s, t := RunAll(guests, before), RunAll(guests, before + after);
            && Abandoned(t, step) && t.intents[step] == s.intents[step] && |s.commands| <= |t.commands|
            && (forall i | |s.commands| <= i < |t.commands| :: t.commands[i].step != step)
            && forall e: nat, request: Request, identity, unit | PhaseOf(t, e).Fresh? && request.step == step ::
                 PhaseOf(Next(t, e, Begin(request, identity, unit)), e)
                 == Ended(if request == t.intents[step].request && identity == t.intents[step].found.identity
                          then UNKNOWN_RETAIN else REFUSED)
    decreases |after|
  {
    hide Inv, Next, RunAll;
    if after == [] {
      assert before + after == before;
      RunHolds(guests, before);
    } else {
      var rest, last := after[..|after| - 1], after[|after| - 1];
      AbandonedForEver(guests, before, rest, step);
      RunHolds(guests, before + rest);
      Unrolled(guests, before + rest, last);
      assert before + after == before + rest + [last];
      AbandonedStep(RunAll(guests, before + rest), last.0, last.1, step);
      CommandsGrow(RunAll(guests, before + rest), last.0, last.1);
    }
    RunHolds(guests, before + after);
    AskedInVain(RunAll(guests, before + after), step);
  }

  lemma {:induction false} Unrolled(guests: string, schedule: seq<(nat, Action)>, last: (nat, Action))
    ensures RunAll(guests, schedule + [last]) == Next(RunAll(guests, schedule), last.0, last.1)
  {
    assert (schedule + [last])[..|schedule|] == schedule;
  }

  lemma {:induction false} CommandsGrow(s: System, e: nat, action: Action)
    ensures s.commands <= Next(s, e, action).commands
  {}

  lemma {:induction false} AskedInVain(s: System, step: Step)
    requires Inv(s) && Abandoned(s, step)
    ensures forall e: nat, request: Request, identity, unit | PhaseOf(s, e).Fresh? && request.step == step ::
              PhaseOf(Next(s, e, Begin(request, identity, unit)), e)
              == Ended(if request == s.intents[step].request && identity == s.intents[step].found.identity
                       then UNKNOWN_RETAIN else REFUSED)
  {
    assert RecordOk(s, step);
  }
}
