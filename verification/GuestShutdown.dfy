/** The supervised shutdown of an allowlist of guests, one after the other
    (layout-migration-guest-shutdown-model.py). */
module GuestShutdown {
  import opened Common

  datatype Guest = Guest(vmid: int, kind: string, node: string, config: string)
  datatype Kind = INTENT_DURABLE | ATTEMPTED | TASK_ACCEPTED | TASK_TERMINAL | OBSERVED_ABSENT
  datatype Event = Event(kind: Kind, index: nat, guest: Guest)

  function KindAt(k: nat): Kind {
    if k == 0 then INTENT_DURABLE else if k == 1 then ATTEMPTED else if k == 2 then TASK_ACCEPTED
    else if k == 3 then TASK_TERMINAL else OBSERVED_ABSENT
  }

  /** The journal of a complete run: five events a guest, in order. */
  function Trace(guests: seq<Guest>): seq<Event> {
    seq(5 * |guests|, j requires 0 <= j < 5 * |guests| => Event(KindAt(j % 5), j / 5, guests[j / 5]))
  }

  predicate Distinct(guests: seq<Guest>) {
    forall i, j | 0 <= i < j < |guests| :: guests[i].vmid != guests[j].vmid
  }

  /** Where a run may be cut, and whether the call it was cut in took effect. */
  datatype Fault = Fault(call: nat, applied: bool)

  /** The cluster, as far as the shutdown concerns it: what runs, the one task that
      may be in flight, what was submitted, and the journal. */
  class Cluster {
    var running: seq<Guest>
    var task: Option<Guest>
    var submitted: seq<Guest>
    var events: seq<Event>
    var calls: nat
    var fault: Option<Fault>

    constructor (running: seq<Guest>, fault: Option<Fault>)
      ensures this.running == running && task == None && submitted == [] && events == [] && calls == 0 && this.fault == fault
    {
      this.running, task, submitted, events, calls, this.fault := running, None, [], [], 0, fault;
    }

    method Hit() returns (cut: bool, applied: bool)
      modifies `calls
      ensures calls == old(calls) + 1
      ensures cut ==> fault.Some?
    {
      cut, applied := fault.Some? && fault.value.call == calls, fault.Some? && fault.value.applied;
      calls := calls + 1;
    }

    method ObserveCluster() returns (seen: Option<(seq<Guest>, bool)>)
      modifies `calls
      ensures seen.Some? ==> seen.value == (running, task == None)
      ensures seen == None ==> fault.Some?
    {
      var cut, _ := Hit();
      return if cut then None else Some((running, task == None));
    }

    method ObserveGuest(guest: Guest) returns (up: Option<bool>)
      modifies `calls
      ensures up.Some? ==> up.value == (guest in running)
      ensures up == None ==> fault.Some?
    {
      var cut, _ := Hit();
      return if cut then None else Some(guest in running);
    }

    method Persist(event: Event) returns (ok: bool)
      modifies `calls, `events
      ensures ok ==> events == old(events) + [event]
      ensures !ok ==> fault.Some? && (events == old(events) || events == old(events) + [event])
    {
      var cut, applied := Hit();
      if !cut || applied { events := events + [event]; }
      return !cut;
    }

    /** Submission is refused while a task is in flight. */
    method Submit(guest: Guest) returns (ok: bool)
      requires task == None
      modifies `calls, `task, `submitted
      ensures ok ==> task == Some(guest) && submitted == old(submitted) + [guest]
      ensures !ok ==> fault.Some?
      ensures (task == None && submitted == old(submitted)) || (task == Some(guest) && submitted == old(submitted) + [guest])
    {
      var cut, applied := Hit();
      if !cut || applied { task, submitted := Some(guest), submitted + [guest]; }
      return !cut;
    }

    /** The task stops its guest; a cut wait leaves open whether it has. */
    method Wait() returns (ok: bool)
      requires task.Some? && |running| > 0 && running[0] == task.value
      modifies `calls, `task, `running
      ensures ok ==> task == None && running == old(running)[1..]
      ensures !ok ==> fault.Some? && ((task == old(task) && running == old(running)) || (task == None && running == old(running)[1..]))
    {
      var cut, applied := Hit();
      if !cut || applied { running, task := running[1..], None; }
      return !cut;
    }
  }

  class Controller {
    const guests: seq<Guest>
    const cluster: Cluster
    var poisoned: bool

    constructor (guests: seq<Guest>, cluster: Cluster)
      ensures this.guests == guests && this.cluster == cluster && !poisoned
    {
      this.guests, this.cluster, poisoned := guests, cluster, false;
    }

    /** Guest i is being dealt with: e of its events are on record, and it has been
        submitted and stopped or not. */
    ghost predicate Standing(i: nat, e: nat, sent: nat, down: nat)
      reads cluster`running, cluster`submitted, cluster`events
    {
      && i <= |guests| && sent <= |guests| && down <= |guests| && 5 * i + e <= 5 * |guests|
      && cluster.events == Trace(guests)[..5 * i + e]
      && cluster.submitted == guests[..sent] && cluster.running == guests[down..]
    }

    /** However a run ended: the journal is a prefix of the full trace, the guests
        before the current one are down and submitted once each in order, the ones
        after it run and were not submitted, no guest was submitted without its attempt
        on record, and none is on record as accepted that was not submitted, or as
        terminal that is not down. */
    ghost predicate Undecided(i: nat)
      reads cluster`running, cluster`submitted, cluster`events
    {
      exists e: nat, sent: nat, down: nat ::
        && Standing(i, e, sent, down) && e <= 5
        && (i <= sent <= i + 1) && (i <= down <= i + 1) && (sent == i + 1 ==> e >= 2) && (down == i + 1 ==> sent == i + 1)
        && (sent == i ==> e <= 2) && (down == i ==> e <= 3)
    }

    method Run() returns (ok: bool, ghost i: nat)
      requires Distinct(guests) && cluster.task == None && cluster.submitted == []
      modifies this, cluster
      ensures ok ==> cluster.running == [] && cluster.submitted == guests && cluster.events == Trace(guests) && cluster.task == None
      ensures ok ==> old(cluster.running) == guests && old(cluster.events) == [] && !old(poisoned)
      ensures cluster.fault == old(cluster.fault)
      ensures ok ==> |cluster.events| == 5 * |guests| && forall g | 0 <= g < |guests| ::
                && cluster.events[5 * g] == Event(INTENT_DURABLE, g, guests[g])
                && cluster.events[5 * g + 1] == Event(ATTEMPTED, g, guests[g])
                && cluster.events[5 * g + 2] == Event(TASK_ACCEPTED, g, guests[g])
                && cluster.events[5 * g + 3] == Event(TASK_TERMINAL, g, guests[g])
                && cluster.events[5 * g + 4] == Event(OBSERVED_ABSENT, g, guests[g])
      ensures old(cluster.running) == guests && old(cluster.events) == [] ==>
                var sent, up, n := |cluster.submitted|, |cluster.running|, |guests|;
                && cluster.submitted <= guests && cluster.events <= Trace(guests)
                && up <= n && cluster.running == guests[n - up..] && sent - 1 <= n - up <= sent
                && 5 * sent - 3 <= |cluster.events| <= 5 * (n - up) + 3
      ensures !ok ==> poisoned && (Undecided(i) || (cluster.submitted == [] && cluster.running == old(cluster.running)
                                                    && cluster.events == old(cluster.events)))
      ensures cluster.fault == None && old(cluster.running) == guests && old(cluster.events) == [] && !old(poisoned) ==> ok
    {
      i, ok := 0, false;
      TraceSays(guests);
      assert guests[0..] == guests && guests[..0] == [] && Trace(guests)[..0] == [];
      if poisoned { return; }
      poisoned := true;
      if cluster.events != [] { return; }
      var seen := cluster.ObserveCluster();
      if seen == None || seen.value != (guests, true) { return; }
      assert guests[0..] == guests;
      assert Standing(0, 0, 0, 0);
      for k := 0 to |guests|
        invariant Standing(k, 0, k, k) && cluster.task == None && poisoned
        invariant cluster.fault == old(cluster.fault)
      {
        i := k;
        assert Standing(k, 0, k, k);
        var done := StopGuest(k);
        if !done { return; }
      }
      i := |guests|;
      assert Standing(|guests|, 0, |guests|, |guests|);
      seen := cluster.ObserveCluster();
      assert Standing(|guests|, 0, |guests|, |guests|) && guests[|guests|..] == [];
      if seen == None || seen.value != ([], true) { return; }
      assert Trace(guests)[..5 * |guests|] == Trace(guests);
      ok, poisoned := true, false;
    }

    method StopGuest(k: nat) returns (done: bool)
      requires k < |guests| && Distinct(guests) && Standing(k, 0, k, k) && cluster.task == None
      modifies cluster
      ensures cluster.fault == old(cluster.fault)
      ensures done ==> Standing(k + 1, 0, k + 1, k + 1) && cluster.task == None
      ensures !done ==> cluster.fault.Some? && Undecided(k)
    {
      hide Trace, Distinct;
      done := Announce(k);
      if !done { return; }
      done := Conclude(k);
    }

    /** Up to the submission. */
    method Announce(k: nat) returns (done: bool)
      requires k < |guests| && Standing(k, 0, k, k) && cluster.task == None
      modifies cluster`calls, cluster`events, cluster`task, cluster`submitted
      ensures done ==> Standing(k, 2, k + 1, k) && cluster.task == Some(guests[k])
      ensures !done ==> cluster.fault.Some? && Undecided(k)
    {
      hide Trace;
      var guest := guests[k];
      assert guests[k..][0] == guest;
      var seen := cluster.ObserveCluster();
      assert Standing(k, 0, k, k);
      if seen == None || seen.value != (guests[k..], true) { return false; }
      var up := cluster.ObserveGuest(guest);
      assert Standing(k, 0, k, k);
      if up != Some(true) { return false; }
      var ok := Record(k, 0, k, k);
      if !ok { return false; }
      ok := Record(k, 1, k, k);
      if !ok { return false; }
      done := cluster.Submit(guest);
      assert Standing(k, 2, k, k) || Standing(k, 2, k + 1, k) by { assert guests[..k + 1] == guests[..k] + [guest]; }
    }

    /** From the accepted task to the proven absence. */
    method Conclude(k: nat) returns (done: bool)
      requires k < |guests| && Distinct(guests) && Standing(k, 2, k + 1, k) && cluster.task == Some(guests[k])
      modifies cluster`calls, cluster`events, cluster`task, cluster`running
      ensures done ==> Standing(k + 1, 0, k + 1, k + 1) && cluster.task == None
      ensures !done ==> cluster.fault.Some? && Undecided(k)
    {
      hide Trace, Distinct;
      LaterGuestsDiffer(guests, k);
      var ok := Record(k, 2, k + 1, k);
      if !ok { return false; }
      assert guests[k..][0] == guests[k] && guests[k..][1..] == guests[k + 1..];
      ok := cluster.Wait();
      assert Standing(k, 3, k + 1, k) || Standing(k, 3, k + 1, k + 1);
      if !ok { return false; }
      ok := Record(k, 3, k + 1, k + 1);
      if !ok { return false; }
      var up := cluster.ObserveGuest(guests[k]);
      assert Standing(k, 4, k + 1, k + 1);
      if up != Some(false) { return false; }
      done := Record(k, 4, k + 1, k + 1);
      if done { assert Standing(k + 1, 0, k + 1, k + 1); }
    }

    method Record(k: nat, e: nat, ghost sent: nat, ghost down: nat) returns (ok: bool)
      requires k < |guests| && e < 5 && Standing(k, e, sent, down)
      requires k <= sent <= k + 1 && k <= down <= k + 1 && (sent == k + 1 ==> e >= 2) && (down == k + 1 ==> sent == k + 1)
      requires (sent == k ==> e < 2) && (down == k ==> e < 3)
      modifies cluster`events, cluster`calls
      ensures ok ==> Standing(k, e + 1, sent, down)
      ensures !ok ==> cluster.fault.Some? && Undecided(k)
    {
      var event := Event(KindAt(e), k, guests[k]);
      NextEvent(guests, k, e);
      ok := cluster.Persist(event);
      assert Standing(k, e, sent, down) || Standing(k, e + 1, sent, down);
    }
  }

  lemma {:induction false} TraceSays(guests: seq<Guest>)
    ensures |Trace(guests)| == 5 * |guests|
    ensures forall g | 0 <= g < |guests| ::
              && Trace(guests)[5 * g] == Event(INTENT_DURABLE, g, guests[g])
              && Trace(guests)[5 * g + 1] == Event(ATTEMPTED, g, guests[g])
              && Trace(guests)[5 * g + 2] == Event(TASK_ACCEPTED, g, guests[g])
              && Trace(guests)[5 * g + 3] == Event(TASK_TERMINAL, g, guests[g])
              && Trace(guests)[5 * g + 4] == Event(OBSERVED_ABSENT, g, guests[g])
  {
    hide Trace;
    forall g | 0 <= g < |guests|
      ensures |Trace(guests)| == 5 * |guests|
      ensures Trace(guests)[5 * g] == Event(INTENT_DURABLE, g, guests[g])
      ensures Trace(guests)[5 * g + 1] == Event(ATTEMPTED, g, guests[g])
      ensures Trace(guests)[5 * g + 2] == Event(TASK_ACCEPTED, g, guests[g])
      ensures Trace(guests)[5 * g + 3] == Event(TASK_TERMINAL, g, guests[g])
      ensures Trace(guests)[5 * g + 4] == Event(OBSERVED_ABSENT, g, guests[g])
    {
      TraceAt(guests, g, 0); TraceAt(guests, g, 1); TraceAt(guests, g, 2); TraceAt(guests, g, 3); TraceAt(guests, g, 4);
    }
    TraceLength(guests);
  }

  lemma {:induction false} TraceLength(guests: seq<Guest>)
    ensures |Trace(guests)| == 5 * |guests|
  {}

  lemma {:induction false} TraceAt(guests: seq<Guest>, g: nat, k: nat)
    requires g < |guests| && k < 5
    ensures 5 * g + k < |Trace(guests)| == 5 * |guests| && Trace(guests)[5 * g + k] == Event(KindAt(k), g, guests[g])
  {
    assert (5 * g + k) % 5 == k && (5 * g + k) / 5 == g;
  }

  lemma {:induction false} LaterGuestsDiffer(guests: seq<Guest>, k: nat)
    requires k < |guests| && Distinct(guests)
    ensures guests[k] !in guests[k + 1..]
  {}

  lemma {:induction false} NextEvent(guests: seq<Guest>, k: nat, e: nat)
    requires k < |guests| && e < 5
    ensures Trace(guests)[..5 * k + e + 1] == Trace(guests)[..5 * k + e] + [Event(KindAt(e), k, guests[k])]
  {
    assert (5 * k + e) % 5 == e && (5 * k + e) / 5 == k;
  }
}
