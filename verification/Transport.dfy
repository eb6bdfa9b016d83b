/** The transport: one attempt on record before an effect is sent, and a recovery
    that only reads (layout-migration-exact-transport.py).  What arrives from the
    network and whether a journal write is acknowledged are inputs. */
module Transport {
  import opened Common
  import opened RestorePlan

  datatype Request = Request(step: Step, binding: string)
  datatype Receipt = Receipt(request: Request, intent: string, after: Service, exitCode: int, startedAt: int, finishedAt: int)
  datatype Key = ATTEMPT(step: Step) | RECEIPT(step: Step) | FINISHED(step: Step)
  datatype Value = Attempted(effect: Request, challenge: string, pins: string) | Received(receipt: Receipt)
                 | Completed(attempt: Value, received: Value)
  datatype Message = Effect(request: Request, challenge: string) | Inspection(request: Request, challenge: string)
  datatype State = UNKNOWN | COMPLETED_HISTORICAL
  datatype WriteFault = Acknowledged | LostAfterWrite | LostBeforeWrite

  /** The answer to an inspection request. */
  datatype Answer = Answer(state: State, receipt: Option<Receipt>)

  /** validate_receipt. */
  predicate ReceiptOk(receipt: Receipt, request: Request, guests: string, issuedAt: int, observedAt: int) {
    && receipt.request == request && receipt.exitCode == 0
    && issuedAt <= receipt.startedAt <= receipt.finishedAt <= observedAt
    && !receipt.after.masked && (request.step.op == START ==> receipt.after.active)
    && receipt.after.substate == if !receipt.after.active then Dead else if request.step.spot.unit == guests then Exited else Running
  }

  class Transport {
    const pins: string
    const guests: string
    const issuedAt: int
    var journal: map<Key, Value>   // durable, shared by all transports of the plan
    var sent: seq<Message>         // what has ever left for a node
    var effects: set<Step>
    var nonces: set<string>
    var poisoned: bool
    var lastTime: int

    constructor (pins: string, guests: string, issuedAt: int)
      ensures Valid() && journal == map[] && sent == [] && !poisoned
      ensures this.pins == pins && this.guests == guests && this.issuedAt == issuedAt
    {
      this.pins, this.guests, this.issuedAt := pins, guests, issuedAt;
      journal, sent, effects, nonces, poisoned, lastTime := map[], [], {}, {}, false, 0;
    }

    /** Whatever was sent as an effect has its attempt on record, and no two sent
        effects are of one step, over all transports there ever were. */
    ghost predicate Valid()
      reads this
    {
      && (forall i | 0 <= i < |sent| && sent[i].Effect? :: ATTEMPT(sent[i].request.step) in journal)
      && (forall i, k | 0 <= i < k < |sent| && sent[i].Effect? && sent[k].Effect? ::
            sent[i].request.step != sent[k].request.step)
    }

    ghost predicate Unattempted(step: Step)
      reads `journal, `effects
    {
      step !in effects && ATTEMPT(step) !in journal && RECEIPT(step) !in journal && FINISHED(step) !in journal
    }

    /** The three records of a finished dispatch, the last naming the other two. */
    ghost predicate CompletedOnRecord(step: Step)
      reads `journal
    {
      && ATTEMPT(step) in journal && RECEIPT(step) in journal && FINISHED(step) in journal
      && journal[FINISHED(step)] == Completed(journal[ATTEMPT(step)], journal[RECEIPT(step)])
    }

    /** A new transport, in a new process, on the same journal. */
    method Restart()
      requires Valid()
      modifies `effects, `nonces, `poisoned
      ensures Valid() && !poisoned && effects == {}
    {
      effects, nonces, poisoned := {}, {}, false;
    }

    method Persist(key: Key, value: Value, fault: WriteFault) returns (ok: bool)
      modifies `journal
      ensures ok <==> key !in old(journal) && fault == Acknowledged
      ensures ok ==> journal == old(journal)[key := value]
      ensures journal == old(journal) || (key !in old(journal) && journal == old(journal)[key := value])
    {
      if key in journal || fault == LostBeforeWrite { return false; }
      journal := journal[key := value];
      if fault == LostAfterWrite { return false; }
      return journal[key] == value;
    }

    /** dispatch_restore_once.  `guard` is the coordinator's consent, `response` the
        node's answer if any came. */
    method DispatchRestoreOnce(request: Request, guard: bool, challenge: string, faults: (WriteFault, WriteFault, WriteFault),
                               response: Option<Receipt>, now: int) returns (r: Option<Receipt>)
      requires Valid()
      modifies this
      ensures Valid()
      ensures sent == old(sent) || sent == old(sent) + [Effect(request, challenge)]
      ensures old(ATTEMPT(request.step) in journal) || !guard || old(poisoned) ==> sent == old(sent) && r == None
      ensures sent != old(sent) ==>
                ATTEMPT(request.step) in journal && journal[ATTEMPT(request.step)] == Attempted(request, challenge, pins)
      ensures r.Some? ==>
                && sent == old(sent) + [Effect(request, challenge)] && response == r
                && journal == old(journal)[ATTEMPT(request.step) := Attempted(request, challenge, pins)]
                                          [RECEIPT(request.step) := Received(r.value)]
                                          [FINISHED(request.step) := Completed(Attempted(request, challenge, pins), Received(r.value))]
      ensures r.Some? ==>
                && r.value.request == request && r.value.exitCode == 0
                && issuedAt <= r.value.startedAt <= r.value.finishedAt <= now
                && !r.value.after.masked && (request.step.op == START ==> r.value.after.active)
                && (r.value.after.active <==> r.value.after.substate == if request.step.spot.unit == guests then Exited else Running)
                && (!r.value.after.active <==> r.value.after.substate == Dead)
      ensures guard && old(Unattempted(request.step)) && !old(poisoned) && old(lastTime) <= now && challenge !in old(nonces)
              && faults == (Acknowledged, Acknowledged, Acknowledged)
              && response.Some? && response.value.request == request && response.value.exitCode == 0
              && issuedAt <= response.value.startedAt <= response.value.finishedAt <= now
              && (request.step.op == START ==> response.value.after.active) && !response.value.after.masked
              && response.value.after.substate == (if !response.value.after.active then Dead
                                                   else if request.step.spot.unit == guests then Exited else Running)
              ==> r == response && !poisoned
      ensures forall key | key in old(journal) :: key in journal && journal[key] == old(journal)[key]
      ensures sent != old(sent) && r == None ==> poisoned
    {
      if poisoned || now < lastTime { return None; }
      lastTime := now;
      var step := request.step;
      if step in effects { return None; }
      if ATTEMPT(step) in journal || FINISHED(step) in journal || RECEIPT(step) in journal { return None; }
      if !guard { return None; }
      effects := effects + {step};
      poisoned := true;  // lifted only where the call returns
      if challenge in nonces { return None; }
      nonces := nonces + {challenge};
      var ok := Persist(ATTEMPT(step), Attempted(request, challenge, pins), faults.0);
      if !ok { return None; }
      sent := sent + [Effect(request, challenge)];
      if response == None || !ReceiptOk(response.value, request, guests, issuedAt, lastTime) { return None; }
      var received := Received(response.value);
      ok := Persist(RECEIPT(step), received, faults.1);
      if !ok { return None; }
      ok := Persist(FINISHED(step), Completed(journal[ATTEMPT(step)], received), faults.2);
      if !ok { return None; }
      poisoned := false;
      return response;
    }

    /** inspect_restore_attempt: reads, and at most asks; it never writes and never
        sends an effect, poisoned or not. */
    method InspectRestoreAttempt(request: Request, remote: bool, challenge: string, answer: Option<Answer>, now: int)
      returns (state: Option<State>)
      requires Valid()
      modifies `sent, `nonces, `poisoned, `lastTime
      ensures Valid()
      ensures sent == old(sent) || (remote && sent == old(sent) + [Inspection(request, challenge)])
      ensures state == Some(COMPLETED_HISTORICAL) ==>
                && ATTEMPT(request.step) in journal && journal[ATTEMPT(request.step)].Attempted?
                && journal[ATTEMPT(request.step)].effect == request
      ensures ATTEMPT(request.step) !in journal && old(lastTime) <= now ==> state == Some(UNKNOWN) && sent == old(sent)
      ensures remote ==>
                (state == Some(COMPLETED_HISTORICAL)
                 <==> && old(lastTime) <= now && challenge !in old(nonces)
                      && ATTEMPT(request.step) in journal && journal[ATTEMPT(request.step)].Attempted?
                      && journal[ATTEMPT(request.step)].effect == request && journal[ATTEMPT(request.step)].pins == pins
                      && answer.Some? && answer.value.state == COMPLETED_HISTORICAL && answer.value.receipt.Some?
                      && ReceiptOk(answer.value.receipt.value, request, guests, issuedAt, now))
      ensures !remote ==>
                (state == Some(COMPLETED_HISTORICAL)
                 <==> && old(lastTime) <= now && CompletedOnRecord(request.step) && journal[RECEIPT(request.step)].Received?
                      && ReceiptOk(journal[RECEIPT(request.step)].receipt, request, guests, issuedAt, now)
                      && journal[ATTEMPT(request.step)].Attempted?
                      && journal[ATTEMPT(request.step)].effect == request && journal[ATTEMPT(request.step)].pins == pins)
    {
      if now < lastTime { return None; }
      lastTime := now;
      var step := request.step;
      if ATTEMPT(step) !in journal { return Some(UNKNOWN); }
      var attempt := journal[ATTEMPT(step)];
      if !attempt.Attempted? { return None; }
      if attempt.effect != request || attempt.pins != pins { return Some(UNKNOWN); }
      if remote {
        if challenge in nonces { return None; }
        nonces := nonces + {challenge};
        sent := sent + [Inspection(request, challenge)];
        if answer == None { poisoned := true; return None; }
        if answer.value.state == UNKNOWN { return if answer.value.receipt == None then Some(UNKNOWN) else None; }
        if answer.value.receipt == None || !ReceiptOk(answer.value.receipt.value, request, guests, issuedAt, lastTime) { return None; }
      } else {
        if RECEIPT(step) !in journal || FINISHED(step) !in journal { return Some(UNKNOWN); }
        if journal[FINISHED(step)] != Completed(attempt, journal[RECEIPT(step)]) { return None; }
        if !journal[RECEIPT(step)].Received? { return None; }
        if !ReceiptOk(journal[RECEIPT(step)].receipt, request, guests, issuedAt, lastTime) { return None; }
      }
      return Some(COMPLETED_HISTORICAL);
    }
  }
}
