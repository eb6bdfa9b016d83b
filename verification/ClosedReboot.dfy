/** The handoff of a closed latch, its release and its ledger across a reboot, by
    ordered writes whose acknowledgements may be lost (closed-reboot-intent-model.py).
    A digest is represented by the value it is a digest of. */
module ClosedReboot {
  import opened Common

  datatype Latch = Latch(state: string, authority: string, txid: string, bootId: string, payload: string)
  datatype Release = Release(qualified: string, latch: Latch)
  datatype Ledger = Ledger(phase: string, generation: string, payload: string)
  datatype Tuple = Tuple(latch: Latch, release: Release, ledger: Ledger)
  datatype Proposal = Proposal(node: string, oldBoot: string, newBoot: string, before: Tuple, after: Tuple)
  datatype Effects = NO_DISPATCH_PROVEN | EXACT_TARGET_CONFIRMED | UNKNOWN_EFFECT
  datatype Result = INTENT_RECORDED | MODEL_COMPLETE

  /** The store: an intent names its proposal, a completion names its intent. */
  datatype Stored = Stored(tuple: Tuple, intent: Option<Proposal>, complete: Option<Proposal>)

  predicate Uuid(s: string) {
    |s| == 36 && s[8] == s[13] == s[18] == s[23] == '-'
    && Hex(s[..8], 8) && Hex(s[9..13], 4) && Hex(s[14..18], 4) && Hex(s[19..23], 4) && Hex(s[24..], 12)
  }

  predicate Closed(l: Latch, boot: string) {
    l.state == "CLOSED" && l.authority == "NONE" && Hex(l.txid, 32) && l.bootId == boot && Hex(l.payload, 64)
  }

  predicate Bound(t: Tuple) {
    && t.release == Release("UNQUALIFIED", t.latch)
    && t.ledger.phase == "ACTIVE" && Hex(t.ledger.generation, 32) && t.ledger.payload == t.latch.payload
  }

  predicate ValidProposal(p: Proposal, bootId: string) {
    && Uuid(p.oldBoot) && Uuid(p.newBoot) && p.oldBoot != p.newBoot && bootId == p.newBoot && p.node != ""
    && Closed(p.before.latch, p.oldBoot) && Closed(p.after.latch, p.newBoot) && p.before.latch.txid != p.after.latch.txid
    && Bound(p.before) && Bound(p.after) && p.before.ledger.generation != p.after.ledger.generation
  }

  /** The tuple after the first i writes of the handoff. */
  function Prefix(p: Proposal, i: nat): Tuple {
    Tuple(if i >= 1 then p.after.latch else p.before.latch,
          if i >= 2 then p.after.release else p.before.release,
          if i >= 3 then p.after.ledger else p.before.ledger)
  }

  /** The four prefixes of a valid proposal are pairwise different, so a state is at
      one index only. */
  lemma {:induction false} PrefixesDiffer(p: Proposal, bootId: string, i: nat, j: nat)
    requires ValidProposal(p, bootId) && i <= 3 && j <= 3 && Prefix(p, i) == Prefix(p, j)
    ensures i == j
  {
    assert p.before.latch != p.after.latch && p.before.release != p.after.release && p.before.ledger != p.after.ledger;
  }

  /** A recorded proposal stands at index i of its handoff. */
  predicate Legal(p: Proposal, st: Stored, i: nat) {
    && i <= 3 && st.tuple == Prefix(p, i) && st.intent == Some(p)
    && (st.complete == None || (st.complete == Some(p) && i == 3))
  }

  /** All states the store gets into: nothing recorded, or one proposal under way. */
  ghost predicate Inv(st: Stored) {
    match st.intent
    case None => st.complete == None
    case Some(p) => ValidProposal(p, p.newBoot) && exists i :: Legal(p, st, i)
  }

  /** In every state the store gets into, each record is the old or the new one, the
      new release stands only behind the new latch, the new ledger only behind the new
      release, and a completion only behind all three. */
  lemma {:induction false} LatchReleaseLedger(st: Stored)
    requires Inv(st)
    ensures st.complete.Some? ==> st.intent.Some?
    ensures st.intent.Some? ==>
              var p, t := st.intent.value, st.tuple;
              && p.before.latch != p.after.latch && p.before.release != p.after.release && p.before.ledger != p.after.ledger
              && t.latch in {p.before.latch, p.after.latch} && t.release in {p.before.release, p.after.release}
              && t.ledger in {p.before.ledger, p.after.ledger}
              && (t.release == p.after.release ==> t.latch == p.after.latch)
              && (t.ledger == p.after.ledger ==> t.release == p.after.release)
              && (st.complete.Some? ==> st.complete == Some(p) && t.ledger == p.after.ledger)
  {
    hide Hex, Uuid;
    if st.intent.Some? {
      var i: nat :| Legal(st.intent.value, st, i);
    }
  }

  /** What the store may be handed over to: from one closed latch of the old boot to
      another of the new one, each with a release and an active ledger of its own. */
  lemma {:induction false} ProposalSays(p: Proposal, bootId: string)
    requires ValidProposal(p, bootId)
    ensures p.oldBoot != p.newBoot == bootId && p.node != "" && |p.oldBoot| == |p.newBoot| == 36
    ensures p.before.latch.bootId == p.oldBoot && p.after.latch.bootId == p.newBoot
    ensures p.before.latch.txid != p.after.latch.txid && p.before.ledger.generation != p.after.ledger.generation
    ensures forall t | t in {p.before, p.after} ::
              && t.latch.state == "CLOSED" && t.latch.authority == "NONE" && Hex(t.latch.txid, 32) && Hex(t.latch.payload, 64)
              && t.release.qualified == "UNQUALIFIED" && t.release.latch == t.latch
              && t.ledger.phase == "ACTIVE" && t.ledger.payload == t.latch.payload && Hex(t.ledger.generation, 32)
  {
    hide Hex;
  }

  // ----- a handoff that goes through -----

  const OLD_BOOT := "00000000" + "-" + "0000" + "-" + "0000" + "-" + "0000" + "-" + "000000000000"
  const NEW_BOOT := "11111111" + "-" + "2222" + "-" + "3333" + "-" + "4444" + "-" + "55555555abcd"

  function Repeated(c: char, n: nat): (s: string)
    requires '0' <= c <= '9'
    ensures Hex(s, n) && |s| == n && (n > 0 ==> s[0] == c)
  {
    seq(n, i => c)
  }

  function HandoffSide(boot: string, c: char): Tuple
    requires '0' <= c <= '9'
  {
    var latch := Latch("CLOSED", "NONE", Repeated(c, 32), boot, Repeated(c, 64));
    Tuple(latch, Release("UNQUALIFIED", latch), Ledger("ACTIVE", Repeated(c, 32), Repeated(c, 64)))
  }

  const HANDOFF := Proposal("n", OLD_BOOT, NEW_BOOT, HandoffSide(OLD_BOOT, '0'), HandoffSide(NEW_BOOT, '1'))

  lemma {:induction false} HandoffIsValid()
    ensures ValidProposal(HANDOFF, NEW_BOOT)
  {
    hide Hex, Repeated;
    assert Repeated('0', 32)[0] == '0' && Repeated('1', 32)[0] == '1';
    BootsAreUuids();
    hide Uuid;
  }

  lemma {:induction false} BootsAreUuids()
    ensures Uuid(OLD_BOOT) && Uuid(NEW_BOOT) && OLD_BOOT != NEW_BOOT
  {
    GroupsMakeUuid("00000000", "0000", "0000", "0000", "000000000000");
    GroupsMakeUuid("11111111", "2222", "3333", "4444", "55555555abcd");
    hide Uuid;
    assert OLD_BOOT[0] != NEW_BOOT[0];
  }

  lemma {:induction false} GroupsMakeUuid(a: string, b: string, c: string, d: string, e: string)
    requires Hex(a, 8) && Hex(b, 4) && Hex(c, 4) && Hex(d, 4) && Hex(e, 12)
    ensures Uuid(a + "-" + b + "-" + c + "-" + d + "-" + e)
  {
    var s := a + "-" + b + "-" + c + "-" + d + "-" + e;
    assert s[..8] == a && s[9..13] == b && s[14..18] == c && s[19..23] == d && s[24..] == e;
  }

  function Final(p: Proposal): Stored {
    Stored(p.after, Some(p), Some(p))
  }

  /** How far the store has come with its recorded proposal. */
  function Index(p: Proposal, t: Tuple): nat {
    if t == Prefix(p, 0) then 0 else if t == Prefix(p, 1) then 1 else if t == Prefix(p, 2) then 2
    else if t == Prefix(p, 3) then 3 else 4
  }

  /** What a caller must know for a run to be let through: nothing else recorded, and
      either no write done and none asked for, or its own intent on record. */
  predicate Admits(st: Stored, p: Proposal, bootId: string, effects: Effects) {
    && ValidProposal(p, bootId)
    && match effects
       case NO_DISPATCH_PROVEN => st.tuple == p.before && st.intent in {None, Some(p)} && st.complete == None
       case EXACT_TARGET_CONFIRMED => st.intent == Some(p)
       case UNKNOWN_EFFECT => false
  }

  /** The nth write from now may lose its acknowledgement, persisted or not. */
  datatype Fault = Fault(after: nat, persisted: bool)

  class Store {
    var stored: Stored
    var writes: nat
    var fault: Option<Fault>

    constructor (tuple: Tuple)
      ensures stored == Stored(tuple, None, None) && writes == 0 && fault == None
    {
      stored, writes, fault := Stored(tuple, None, None), 0, None;
    }

    method Write(next: Stored) returns (acked: bool)
      modifies this
      ensures stored == old(stored) || stored == next
      ensures acked ==> stored == next
      ensures writes == old(writes) + 1
      ensures old(fault) == None ==> acked && fault == None
    {
      writes := writes + 1;
      if fault.Some? && fault.value.after == 0 {
        if fault.value.persisted { stored := next; }
        fault := None;
        return false;
      }
      if fault.Some? { fault := Some(fault.value.(after := fault.value.after - 1)); }
      stored := next;
      return true;
    }

    /** reconcile. */
    method Reconcile(p: Proposal, bootId: string, effects: Effects) returns (r: Option<Result>)
      requires Inv(stored)
      modifies this
      ensures Inv(stored)
      ensures old(stored).intent.Some? ==> stored.intent == old(stored).intent
      ensures old(stored).intent.Some? && old(stored).intent != Some(p) ==> r == None && stored == old(stored) && writes == old(writes)
      ensures stored.tuple != old(stored).tuple ==>
                old(stored).intent == Some(p) && Index(p, old(stored).tuple) < Index(p, stored.tuple) <= 3
      ensures old(stored).intent == None ==> stored == old(stored) || stored == old(stored).(intent := Some(p))
      ensures !Admits(old(stored), p, bootId, effects) ==> r == None && stored == old(stored) && writes == old(writes)
      ensures Admits(old(stored), p, bootId, effects) && old(fault) == None ==> r.Some?
      ensures r.Some? ==> if effects == EXACT_TARGET_CONFIRMED then r.value == MODEL_COMPLETE && stored == Stored(p.after, Some(p), Some(p))
                          else r.value == INTENT_RECORDED && stored == old(stored).(intent := Some(p))
      ensures old(stored) == Final(p) ==> stored == old(stored) && writes == old(writes)
      ensures old(fault) == None ==> fault == None
      ensures stored.tuple.release != old(stored).tuple.release ==> stored.tuple.latch == p.after.latch
      ensures stored.tuple.ledger != old(stored).tuple.ledger ==> stored.tuple.release == p.after.release
    {
      if !ValidProposal(p, bootId) { return None; }
      var current := stored.intent;
      if current != None && current != Some(p) { return None; }
      var actual := stored.tuple;
      var index := Index(p, actual);
      if index == 4 { return None; }
      IndexOfPrefix(p, bootId, stored);
      if index != 0 && current != Some(p) { return None; }
      var done := stored.complete;
      if !(done == None || (done == Some(p) && index == 3)) { return None; }
      if effects == UNKNOWN_EFFECT { return None; }
      if effects == NO_DISPATCH_PROVEN {
        if index != 0 || done != None { return None; }
        if current == None {
          assert Legal(p, stored.(intent := Some(p)), 0);
          var ok := Write(stored.(intent := Some(p)));
          if !ok { return None; }
        }
        return Some(INTENT_RECORDED);
      }
      if current != Some(p) { return None; }
      for i := 0 to 3
        invariant Legal(p, stored, if index <= i then i else index) && stored.complete == done
        invariant old(fault) == None ==> fault == None
        invariant index == 3 ==> writes == old(writes)
      {
        if index <= i {
          var next := stored.(tuple := Prefix(p, i + 1));
          assert Legal(p, next, i + 1);
          IndexOfPrefix(p, bootId, next);
          var ok := Write(next);
          if !ok { return None; }
        }
      }
      IndexOfPrefix(p, bootId, stored);
      if done == None {
        assert Legal(p, Final(p), 3);
        var ok := Write(stored.(complete := Some(p)));
        if !ok { return None; }
      }
      return Some(MODEL_COMPLETE);
    }

    /** Intent first, then the handoff: four writes and a completion. */
    method HandOver() returns (first: Option<Result>, second: Option<Result>)
      requires stored == Stored(HANDOFF.before, None, None) && fault == None && writes == 0
      modifies this
      ensures first == Some(INTENT_RECORDED) && second == Some(MODEL_COMPLETE)
      ensures stored == Stored(HANDOFF.after, Some(HANDOFF), Some(HANDOFF))
    {
      hide ValidProposal;
      HandoffIsValid();
      first := Reconcile(HANDOFF, NEW_BOOT, NO_DISPATCH_PROVEN);
      second := Reconcile(HANDOFF, NEW_BOOT, EXACT_TARGET_CONFIRMED);
    }

    /** Any number of confirmed runs, each losing any one acknowledgement or none:
        the first run that loses none reaches the same complete store, and runs
        after it write nothing. */
    method ReconcileAll(p: Proposal, faults: seq<Option<Fault>>)
      requires Inv(stored) && stored.intent == Some(p)
      modifies this
      ensures Inv(stored) && stored.intent == Some(p)
      ensures None in faults ==> stored == Final(p)
      ensures old(stored) == Final(p) ==> stored == old(stored) && writes == old(writes)
    {
      for i := 0 to |faults|
        invariant Inv(stored) && stored.intent == Some(p)
        invariant None in faults[..i] ==> stored == Final(p)
        invariant old(stored) == Final(p) ==> stored == old(stored) && writes == old(writes)
      {
        fault := faults[i];
        var r := Reconcile(p, p.newBoot, EXACT_TARGET_CONFIRMED);
      }
    }
  }

  lemma {:induction false} IndexOfPrefix(p: Proposal, bootId: string, st: Stored)
    requires ValidProposal(p, bootId)
    ensures forall i: nat | Legal(p, st, i) :: Index(p, st.tuple) == i
    ensures Index(p, st.tuple) <= 3 ==> st.tuple == Prefix(p, Index(p, st.tuple))
  {
    forall i: nat | Legal(p, st, i) ensures Index(p, st.tuple) == i {
      PrefixesDiffer(p, bootId, Index(p, st.tuple), i);
    }
  }
}
