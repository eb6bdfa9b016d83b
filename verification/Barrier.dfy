/** The maintenance barrier's journal: the events it consists of, the two
    recognisers that read it back, and the hash chain that carries it
    (layout-migration-barrier-model.py, layout-migration-barrier-file-journal.py). */
module Barrier {
  import opened Common
  import opened RestorePlan

  datatype StepName = ENTRY_BLOCK | SERVICE_DRAIN | FINAL_AUDIT
  datatype Kind = INTENT_DURABLE | ATTEMPTED | OBSERVED_COMPLETE
  datatype Action = Action(step: StepName, node: string)

  datatype Observation = Observation(
    node: string, bootId: string, membership: seq<string>, storageCfg: string, workload: string, quorate: bool,
    runningGuests: seq<string>, haState: string, tasks: seq<string>, workers: seq<string>, pendingJobs: seq<string>,
    masks: set<string>, active: set<string>, stopped: set<string>)

  datatype Receipt = EntryBlocked(masks: set<string>, ingress: set<string>) | Observed(observation: Observation)
  datatype Event = Event(tx: string, plan: Plan, kind: Kind, index: int, step: StepName, node: string,
                         receipt: Option<Receipt>)

  function ByNode(plan: Plan, step: StepName): seq<Action> {
    seq(|plan.participants|, i requires 0 <= i < |plan.participants| => Action(step, plan.participants[i].node))
  }

  /** The one action order a barrier plan may have: step by step, all nodes each. */
  function Actions(plan: Plan): seq<Action> {
    ByNode(plan, ENTRY_BLOCK) + ByNode(plan, SERVICE_DRAIN) + ByNode(plan, FINAL_AUDIT)
  }

  function Nodes(plan: Plan): seq<string> {
    seq(|plan.participants|, i requires 0 <= i < |plan.participants| => plan.participants[i].node)
  }

  function TerminalIngress(t: Table): set<string> {
    t.entry - {t.guests}
  }

  function ForbiddenStops(t: Table): set<string> {
    {t.guests} + t.essential + t.sanEssential
  }

  predicate ValidObservation(plan: Plan, node: string, o: Observation, final: bool) {
    && (exists r | 0 <= r < |plan.participants| :: plan.participants[r].node == node && plan.participants[r].bootId == o.bootId)
    && o.node == node && o.membership == Nodes(plan) && o.storageCfg == plan.storageCfg
    && o.workload == plan.workload && o.quorate
    && o.runningGuests == [] && o.tasks == [] && o.workers == [] && o.pendingJobs == []
    && o.haState in {"EMPTY_IDLE", "DRAINED"}
    && (final ==>
          && o.haState == "DRAINED"
          && Targets(plan.table) + plan.table.entry <= o.masks
          && o.active !! o.stopped
          && ForbiddenStops(plan.table) !! o.stopped
          && o.stopped == Targets(plan.table)
          && o.active <= plan.table.preserved)
  }

  predicate ReceiptOk(plan: Plan, action: Action, receipt: Receipt) {
    match action.step
    case ENTRY_BLOCK => receipt == EntryBlocked(plan.table.entry, TerminalIngress(plan.table))
    case SERVICE_DRAIN => receipt.Observed? && ValidObservation(plan, action.node, receipt.observation, false)
    case FINAL_AUDIT => receipt.Observed? && ValidObservation(plan, action.node, receipt.observation, true)
  }

  function KindAt(k: nat): Kind {
    if k == 0 then INTENT_DURABLE else if k == 1 then ATTEMPTED else OBSERVED_COMPLETE
  }

  predicate RowOk(plan: Plan, action: Action, kind: Kind, index: nat, row: Event) {
    && (row.receipt.Some? <==> kind == OBSERVED_COMPLETE)
    && row.tx == plan.tx && row.plan == plan && row.kind == kind && row.index == index
    && row.step == action.step && row.node == action.node
    && (kind == OBSERVED_COMPLETE ==> ReceiptOk(plan, action, row.receipt.value))
  }

  /** What both recognisers are to accept: the first so many of the three records
      of each action, in order. */
  predicate Accepted(plan: Plan, actions: seq<Action>, events: seq<Event>) {
    && |events| <= 3 * |actions|
    && forall i | 0 <= i < |events| :: RowOk(plan, actions[i / 3], KindAt(i % 3), i / 3, events[i])
  }

  /** First every node is entry-blocked, then every node drained, then every node
      audited, in the plan's order each time. */
  lemma {:induction false} ActionsAre(plan: Plan)
    ensures var n := |plan.participants|;
            && |Actions(plan)| == 3 * n
            && forall i | 0 <= i < n ::
                 && Actions(plan)[i] == Action(ENTRY_BLOCK, plan.participants[i].node)
                 && Actions(plan)[n + i] == Action(SERVICE_DRAIN, plan.participants[i].node)
                 && Actions(plan)[2 * n + i] == Action(FINAL_AUDIT, plan.participants[i].node)
  {}

  /** What an accepted observation proves of its node, and a final one besides. */
  lemma {:induction false} ObservationProves(plan: Plan, node: string, o: Observation, final: bool)
    requires ValidObservation(plan, node, o, final)
    ensures o.node == node && exists r | 0 <= r < |plan.participants| ::
              plan.participants[r].node == node && plan.participants[r].bootId == o.bootId
    ensures |o.membership| == |plan.participants| && forall r | 0 <= r < |plan.participants| ::
              o.membership[r] == plan.participants[r].node
    ensures o.storageCfg == plan.storageCfg && o.workload == plan.workload && o.quorate
    ensures o.runningGuests == o.tasks == o.workers == o.pendingJobs == [] && o.haState in {"EMPTY_IDLE", "DRAINED"}
    ensures final ==>
              && o.haState == "DRAINED"
              && (forall u | u in Targets(plan.table) :: u in o.masks && u in o.stopped && u !in o.active)
              && (forall u | u in plan.table.entry :: u in o.masks)
              && (forall u | u in o.stopped :: u in Targets(plan.table) && u !in plan.table.essential
                                               && u !in plan.table.sanEssential && u != plan.table.guests)
              && (forall u | u in o.active :: u in plan.table.preserved)
  {
    hide Targets;
  }

  /** Event by event, what an accepted history consists of. */
  lemma {:induction false} HistorySays(plan: Plan, actions: seq<Action>, events: seq<Event>, i: nat)
    requires Accepted(plan, actions, events) && i < |events|
    ensures i / 3 < |actions|
    ensures var e, action := events[i], actions[i / 3];
            && e.tx == plan.tx && e.plan == plan && e.index == i / 3 && e.step == action.step && e.node == action.node
            && (i % 3 == 0 ==> e.kind == INTENT_DURABLE && e.receipt == None)
            && (i % 3 == 1 ==> e.kind == ATTEMPTED && e.receipt == None)
            && (i % 3 == 2 ==>
                  && e.kind == OBSERVED_COMPLETE && e.receipt.Some?
                  && (action.step == ENTRY_BLOCK ==>
                        e.receipt.value == EntryBlocked(plan.table.entry, plan.table.entry - {plan.table.guests}))
                  && (action.step != ENTRY_BLOCK ==>
                        && e.receipt.value.Observed?
                        && ValidObservation(plan, action.node, e.receipt.value.observation, action.step == FINAL_AUDIT)))
  {
    hide ValidObservation;
    assert RowOk(plan, actions[i / 3], KindAt(i % 3), i / 3, events[i]);
  }

  /** Controller._history: an action loop around a kind loop, with a cursor. */
  method History(plan: Plan, actions: seq<Action>, history: seq<Event>) returns (r: Option<(nat, Option<Kind>)>)
    ensures r.Some? <==> Accepted(plan, actions, history)
    ensures r.Some? ==> r.value == (|history| / 3, if |history| == 3 * |actions| then None else Some(KindAt(|history| % 3)))
  {
    var position := 0;
    for index := 0 to |actions|
      invariant position == 3 * index <= |history|
      invariant forall i | 0 <= i < position :: RowOk(plan, actions[i / 3], KindAt(i % 3), i / 3, history[i])
    {
      for k := 0 to 3
        invariant position == 3 * index + k <= |history|
        invariant forall i | 0 <= i < position :: RowOk(plan, actions[i / 3], KindAt(i % 3), i / 3, history[i])
      {
        if position >= |history| { return Some((index, Some(KindAt(k)))); }
        assert position / 3 == index && position % 3 == k;
        if !RowOk(plan, actions[index], KindAt(k), index, history[position]) { return None; }
        position := position + 1;
      }
    }
    if position != |history| { return None; }
    return Some((|actions|, None));
  }

  // ----- the hash chain -----

  datatype Body = Body(sequence: int, previous: string, event: Event)
  datatype Record = Record(body: Body, claimed: string)
  datatype JournalState = COMPLETED_HISTORICAL | EMPTY_INSPECTION | RECOVERY_REQUIRED

  const ZERO := "0000000000000000000000000000000000000000000000000000000000000000"

  /** The journal files of a list of events: each record names its predecessor. */
  function Chain(sha: Body -> string, events: seq<Event>): (records: seq<Record>)
    ensures |records| == |events|
  {
    if events == [] then []
    else
      var before := Chain(sha, events[..|events| - 1]);
      var body := Body(|events|, LastHash(before), events[|events| - 1]);
      before + [Record(body, sha(body))]
  }

  function LastHash(records: seq<Record>): string {
    if records == [] then ZERO else records[|records| - 1].claimed
  }

  function Events(records: seq<Record>): seq<Event> {
    seq(|records|, i requires 0 <= i < |records| => records[i].body.event)
  }

  predicate Linked(sha: Body -> string, plan: Plan, records: seq<Record>, i: nat)
    requires i < |records|
  {
    var body := records[i].body;
    && (body.event.receipt.Some? <==> body.event.kind == OBSERVED_COMPLETE)
    && body.sequence == i + 1 && body.event.tx == plan.tx && body.event.plan == plan
    && body.previous == LastHash(records[..i])
    && records[i].claimed == sha(body)
  }

  predicate Readable(sha: Body -> string, plan: Plan, actions: seq<Action>, records: seq<Record>) {
    && (forall i | 0 <= i < |records| :: Linked(sha, plan, records, i))
    && Accepted(plan, actions, Events(records))
  }

  /** inspect: one loop over the chain, then one flat loop over the events with
      position div 3 and position mod 3. */
  method Inspect(sha: Body -> string, plan: Plan, actions: seq<Action>, records: seq<Record>)
    returns (r: Option<(JournalState, seq<Event>)>)
    ensures r.Some? <==> Readable(sha, plan, actions, records)
    ensures r.Some? ==> r.value.1 == Events(records)
    ensures r.Some? ==> (r.value.0 == COMPLETED_HISTORICAL <==> |records| == 3 * |actions|)
    ensures r.Some? ==> (r.value.0 == EMPTY_INSPECTION <==> |records| == 0 < |actions|)
  {
    var previous := ZERO;
    var events: seq<Event> := [];
    var i := 0;
    while i < |records|
      invariant 0 <= i <= |records|
      invariant previous == LastHash(records[..i])
      invariant events == Events(records[..i])
      invariant forall k | 0 <= k < i :: Linked(sha, plan, records, k)
    {
      var body := records[i].body;
      if !(&& (body.event.receipt.Some? <==> body.event.kind == OBSERVED_COMPLETE)
           && body.sequence == i + 1 && body.event.tx == plan.tx && body.event.plan == plan
           && body.previous == previous && records[i].claimed == sha(body)) {
        assert !Linked(sha, plan, records, i);
        return None;
      }
      assert Linked(sha, plan, records, i);
      previous := records[i].claimed;
      events := events + [body.event];
      i := i + 1;
      assert records[..i][..i - 1] == records[..i - 1];
    }
    assert records[..i] == records;
    if |events| > 3 * |actions| { return None; }
    for position := 0 to |events|
      invariant forall k | 0 <= k < position :: RowOk(plan, actions[k / 3], KindAt(k % 3), k / 3, events[k])
    {
      if !RowOk(plan, actions[position / 3], KindAt(position % 3), position / 3, events[position]) { return None; }
    }
    var state := if |events| == 3 * |actions| then COMPLETED_HISTORICAL
                 else if |events| == 0 then EMPTY_INSPECTION else RECOVERY_REQUIRED;
    return Some((state, events));
  }

  /** The two recognisers agree on the event lists they accept and on which of
      them are complete. */
  method RecognisersAgree(sha: Body -> string, plan: Plan, actions: seq<Action>, events: seq<Event>)
    returns (nested: Option<(nat, Option<Kind>)>, flat: Option<(JournalState, seq<Event>)>)
    ensures nested.Some? <==> flat.Some?
    ensures nested.Some? ==> (nested.value.1 == None <==> flat.value.0 == COMPLETED_HISTORICAL)
    ensures nested.Some? ==> flat.value.1 == events
  {
    nested := History(plan, actions, events);
    flat := Inspect(sha, plan, actions, Chain(sha, events));
    ChainEvents(sha, events);
    if Accepted(plan, actions, events) {
      ChainLinked(sha, plan, actions, events);
    }
  }

  lemma {:induction false} ChainEvents(sha: Body -> string, events: seq<Event>)
    ensures Events(Chain(sha, events)) == events
  {
    if events != [] {
      ChainEvents(sha, events[..|events| - 1]);
      assert events == events[..|events| - 1] + [events[|events| - 1]];
    }
  }

  lemma {:induction false} ChainPrefix(sha: Body -> string, events: seq<Event>, k: nat)
    requires k <= |events|
    ensures Chain(sha, events)[..k] == Chain(sha, events[..k])
  {
    if k < |events| {
      var before := events[..|events| - 1];
      ChainPrefix(sha, before, k);
      assert before[..k] == events[..k];
      assert Chain(sha, events)[..k] == Chain(sha, before)[..k];
    } else {
      assert events[..k] == events;
    }
  }

  lemma {:induction false} ChainLinked(sha: Body -> string, plan: Plan, actions: seq<Action>, events: seq<Event>)
    requires Accepted(plan, actions, events)
    ensures forall i | 0 <= i < |events| :: Linked(sha, plan, Chain(sha, events), i)
  {
    hide Chain, Accepted, Linked;
    forall i | 0 <= i < |events| ensures Linked(sha, plan, Chain(sha, events), i) {
      AcceptedEvent(plan, actions, events, i);
      ChainedAt(sha, plan, events, i);
    }
  }

  lemma {:induction false} AcceptedEvent(plan: Plan, actions: seq<Action>, events: seq<Event>, i: nat)
    requires Accepted(plan, actions, events) && i < |events|
    ensures events[i].receipt.Some? <==> events[i].kind == OBSERVED_COMPLETE
    ensures events[i].tx == plan.tx && events[i].plan == plan
  {
    hide ReceiptOk;
    assert RowOk(plan, actions[i / 3], KindAt(i % 3), i / 3, events[i]);
  }

  /** The record of event i names the hash of the chain before it. */
  lemma {:induction false} ChainedAt(sha: Body -> string, plan: Plan, events: seq<Event>, i: nat)
    requires i < |events| && events[i].tx == plan.tx && events[i].plan == plan
    requires events[i].receipt.Some? <==> events[i].kind == OBSERVED_COMPLETE
    ensures Linked(sha, plan, Chain(sha, events), i)
  {
    ChainPrefix(sha, events, i);
    ChainPrefix(sha, events, i + 1);
    assert events[..i + 1][..i] == events[..i];
    assert Chain(sha, events)[i] == Chain(sha, events)[..i + 1][i];
  }

  /** A journal cut at any point is read back as exactly the events written
      before the cut. */
  lemma {:induction false} CrashPrefixReadsBack(sha: Body -> string, plan: Plan, actions: seq<Action>, events: seq<Event>, k: nat)
    requires Accepted(plan, actions, events) && k <= |events|
    ensures Readable(sha, plan, actions, Chain(sha, events)[..k])
    ensures Events(Chain(sha, events)[..k]) == events[..k]
  {
    ChainPrefix(sha, events, k);
    ChainEvents(sha, events[..k]);
    assert Accepted(plan, actions, events[..k]);
    ChainLinked(sha, plan, actions, events[..k]);
  }

  /** Record by record, what a readable journal consists of. */
  lemma {:induction false} RecordsSay(sha: Body -> string, plan: Plan, actions: seq<Action>, records: seq<Record>, i: nat)
    requires Readable(sha, plan, actions, records) && i < |records|
    ensures var body := records[i].body;
            && body.sequence == i + 1 && records[i].claimed == sha(body)
            && body.previous == (if i == 0 then "0000000000000000000000000000000000000000000000000000000000000000"
                                 else records[i - 1].claimed)
            && body.event.tx == plan.tx && body.event.plan == plan
  {
    hide Accepted;
    assert Linked(sha, plan, records, i);
  }

  ghost predicate Injective(sha: Body -> string) {
    forall a: Body, b: Body :: sha(a) == sha(b) ==> a == b
  }

  /** The last record hash determines the whole journal: two readable journals of
      one plan that end in the same hash are the same journal.  The zero hash of
      an empty journal needs no care, since a record also carries its number. */
  lemma {:induction false} LastHashDeterminesJournal(
      sha: Body -> string, plan: Plan, a: seq<Record>, b: seq<Record>)
    requires Injective(sha)
    requires forall i | 0 <= i < |a| :: Linked(sha, plan, a, i)
    requires forall i | 0 <= i < |b| :: Linked(sha, plan, b, i)
    requires |a| > 0 && |b| > 0 && LastHash(a) == LastHash(b)
    ensures a == b
    decreases |a|
  {
    var m, n := |a| - 1, |b| - 1;
    assert Linked(sha, plan, a, m) && Linked(sha, plan, b, n);
    assert a[m].body == b[n].body;
    assert m == n;
    if m > 0 {
      forall i | 0 <= i < m ensures Linked(sha, plan, a[..m], i) && Linked(sha, plan, b[..m], i) {
        assert Linked(sha, plan, a, i) && Linked(sha, plan, b, i);
        assert a[..m][..i] == a[..i] && b[..m][..i] == b[..i];
      }
      LastHashDeterminesJournal(sha, plan, a[..m], b[..m]);
    }
    assert a == a[..m] + [a[m]] && b == b[..m] + [b[m]];
  }

  /** The create-only file journal of one run.  A write may be cut after the file
      is durable: then the file stays and the caller sees a refusal. */
  datatype WriteFault = Acknowledged | LostAfterWrite | LostBeforeWrite

  class BarrierFileJournal {
    const plan: Plan
    const sha: Body -> string
    var events: seq<Event>
    var previous: string
    var files: seq<Record>
    var dead: bool
    ghost var written: seq<Event>  // the events that reached a file

    constructor (plan: Plan, sha: Body -> string)
      ensures Valid() && events == [] && !dead && this.plan == plan && this.sha == sha
    {
      this.plan, this.sha := plan, sha;
      events, previous, files, dead, written := [], ZERO, [], false, [];
    }

    ghost predicate Valid()
      reads this
    {
      && files == Chain(sha, written)
      && (if |written| == |events| then written == events && previous == LastHash(files)
          else dead && |written| == |events| + 1 && written[..|events|] == events)
    }

    /** Whatever the fault, the files chain the old events and at most this one
        more; only an acknowledged write is in the caller's view. */
    method PersistEvent(event: Event, fault: WriteFault) returns (ok: bool)
      requires Valid() && !dead
      modifies this
      ensures Valid()
      ensures ok <==> fault == Acknowledged && (event.receipt.Some? <==> event.kind == OBSERVED_COMPLETE)
                      && event.tx == plan.tx && event.plan == plan
      ensures dead <==> !ok
      ensures events == (if ok then old(events) + [event] else old(events))
      ensures written == old(events) || written == old(events) + [event]
      ensures old(files) <= files
    {
      if !((event.receipt.Some? <==> event.kind == OBSERVED_COMPLETE) && event.tx == plan.tx && event.plan == plan) {
        dead := true;
        return false;
      }
      if fault == LostBeforeWrite { dead := true; return false; }
      var body := Body(|events| + 1, previous, event);
      var record := Record(body, sha(body));
      written := written + [event];
      assert written[..|written| - 1] == events;
      files := files + [record];
      if fault == LostAfterWrite { dead := true; return false; }
      previous := record.claimed;
      events := events + [event];
      return true;
    }
  }
}
