/** Who may start a barrier command: controller, backend and node agent together,
    over any number of crashes and restarts (layout-migration-barrier-model.py,
    layout-migration-barrier-backend.py, layout-migration-barrier-node-latch.py). */
module BarrierBackend {
  import opened Common
  import opened RestorePlan
  import opened Barrier

  datatype Row = Row(kind: Kind, index: nat, action: Action)

  /** The journal of a complete run: three events an action, in order. */
  function RowsOf(actions: seq<Action>): seq<Row> {
    seq(3 * |actions|, i requires 0 <= i < 3 * |actions| => Row(KindAt(i % 3), i / 3, actions[i / 3]))
  }

  predicate DistinctNodes(plan: Plan) {
    forall i, j | 0 <= i < j < |plan.participants| :: plan.participants[i].node != plan.participants[j].node
  }

  /** What happened on the nodes, in order. */
  datatype Item = Watched(node: string, blocked: bool) | Began(action: Action)

  /** One answer from outside: whether the call is cut before or after its durable
      effect, and what an observation shows. */
  datatype Answer = Answer(before: bool, after: bool, valid: bool, blocked: bool)

  /** The node has shown its entry blocked since the last entry block began anywhere. */
  predicate SeenBlocked(trace: seq<Item>, node: string) {
    exists j | 0 <= j < |trace| :: trace[j] == Watched(node, true) && NoEntryAfter(trace, j)
  }

  predicate NoEntryAfter(trace: seq<Item>, j: nat) {
    forall k | j < k < |trace| :: trace[k].Began? ==> trace[k].action.step != ENTRY_BLOCK
  }

  predicate AllSeenBlocked(plan: Plan, trace: seq<Item>) {
    forall r | 0 <= r < |plan.participants| :: SeenBlocked(trace, plan.participants[r].node)
  }

  predicate AttemptOnRecord(rows: seq<Row>, action: Action) {
    exists k | 0 <= k < |rows| :: rows[k].kind == ATTEMPTED && rows[k].action == action
  }

  /** A batch of commands began once its latch and its attempt were durable and its
      node had just been looked at; a drain only on a node that showed its entry
      blocked, and after every node had, once all entry blocks were through. */
  predicate BeganOk(plan: Plan, rows: seq<Row>, latches: set<Action>, trace: seq<Item>, i: nat)
    requires i < |trace| && trace[i].Began?
  {
    var action := trace[i].action;
    && action in latches && AttemptOnRecord(rows, action)
    && i > 0 && trace[i - 1].Watched? && trace[i - 1].node == action.node
    && (action.step == SERVICE_DRAIN ==> trace[i - 1].blocked && AllSeenBlocked(plan, trace[..i]))
  }

  /** Every batch ever begun is in order, and none began twice. */
  predicate Justified(plan: Plan, rows: seq<Row>, latches: set<Action>, trace: seq<Item>) {
    && (forall i | 0 <= i < |trace| && trace[i].Began? :: BeganOk(plan, rows, latches, trace, i))
    && (forall i, k | 0 <= i < k < |trace| && trace[i].Began? && trace[k].Began? :: trace[i].action != trace[k].action)
  }

  lemma {:induction false} RecordsGrow(plan: Plan, rows: seq<Row>, rows': seq<Row>, latches: set<Action>, latches': set<Action>,
                                       trace: seq<Item>)
    requires Justified(plan, rows, latches, trace) && rows <= rows' && latches <= latches'
    ensures Justified(plan, rows', latches', trace)
  {
    forall i | 0 <= i < |trace| && trace[i].Began? ensures BeganOk(plan, rows', latches', trace, i) {
      assert BeganOk(plan, rows, latches, trace, i);
      var k :| 0 <= k < |rows| && rows[k].kind == ATTEMPTED && rows[k].action == trace[i].action;
      assert rows'[k] == rows[k];
    }
  }

  lemma {:induction false} NotBegun(plan: Plan, rows: seq<Row>, latches: set<Action>, trace: seq<Item>, action: Action)
    requires Justified(plan, rows, latches, trace) && action !in latches
    ensures Began(action) !in trace
  {
    forall i | 0 <= i < |trace| ensures trace[i] != Began(action) {
      if trace[i].Began? { assert BeganOk(plan, rows, latches, trace, i); }
    }
  }

  lemma {:induction false} ItemGoesIn(plan: Plan, rows: seq<Row>, latches: set<Action>, trace: seq<Item>, item: Item)
    requires Justified(plan, rows, latches, trace)
    requires item.Began? ==>
               && item.action in latches && Began(item.action) !in trace && AttemptOnRecord(rows, item.action)
               && |trace| > 0 && trace[|trace| - 1].Watched? && trace[|trace| - 1].node == item.action.node
               && (item.action.step == SERVICE_DRAIN ==> trace[|trace| - 1].blocked && AllSeenBlocked(plan, trace))
    ensures Justified(plan, rows, latches, trace + [item])
  {
    var n, after := |trace|, trace + [item];
    assert after[..n] == trace;
    forall i | 0 <= i < |after| && after[i].Began? ensures BeganOk(plan, rows, latches, after, i) {
      if i < n {
        assert BeganOk(plan, rows, latches, trace, i);
        assert after[..i] == trace[..i];
      }
    }
    forall i, k | 0 <= i < k < |after| && after[i].Began? && after[k].Began? ensures after[i].action != after[k].action {
      assert after[i] == trace[i] && trace[i] in trace && trace[i] == Began(trace[i].action);
    }
  }

  predicate ShownSince(trace: seq<Item>, start: nat, node: string) {
    exists k | start <= k < |trace| :: trace[k] == Watched(node, true)
  }

  /** Later items of the given action and its node. */
  predicate OnlyOf(before: seq<Item>, after: seq<Item>, action: Action) {
    && before <= after
    && forall i | |before| <= i < |after| :: after[i] == Began(action) || (after[i].Watched? && after[i].node == action.node)
  }

  lemma {:induction false} SeenStaysSeen(plan: Plan, trace: seq<Item>, later: seq<Item>)
    requires AllSeenBlocked(plan, trace) && trace <= later
    requires forall k | |trace| <= k < |later| :: later[k].Began? ==> later[k].action.step != ENTRY_BLOCK
    ensures AllSeenBlocked(plan, later)
  {
    forall r | 0 <= r < |plan.participants| ensures SeenBlocked(later, plan.participants[r].node) {
      var node := plan.participants[r].node;
      assert SeenBlocked(trace, node);
      var j :| 0 <= j < |trace| && trace[j] == Watched(node, true) && NoEntryAfter(trace, j);
      assert later[j] == trace[j];
      assert NoEntryAfter(later, j) by {
        forall k | j < k < |later| ensures later[k].Began? ==> later[k].action.step != ENTRY_BLOCK {
          if k < |trace| { assert later[k] == trace[k]; }
        }
      }
    }
  }

  class Plant {
    const plan: Plan
    const answers: nat -> Answer
    var asked: nat
    // durable
    var rows: seq<Row>        // the coordinator's journal
    var latches: set<Action>  // the nodes' create-only attempt directories
    var trace: seq<Item>
    // lost in a restart
    var token: Option<Action>
    var attempts: set<Action>
    var poisoned: bool

    constructor (plan: Plan, answers: nat -> Answer)
      ensures this.plan == plan && Valid() && rows == [] && trace == []
    {
      this.plan, this.answers := plan, answers;
      asked, rows, latches, trace, token, attempts, poisoned := 0, [], {}, [], None, {}, false;
    }

    /** Every node has been seen entry-blocked. */
    ghost predicate AllBlocked()
      reads `trace
    {
      AllSeenBlocked(plan, trace)
    }

    ghost predicate Valid()
      reads `rows, `latches, `trace
    {
      Justified(plan, rows, latches, trace)
    }

    /** No call is cut, and every observation is in order. */
    ghost predicate Calm()
    {
      forall k: nat :: answers(k) == Answer(false, false, true, true)
    }

    method Ask() returns (a: Answer)
      modifies `asked
      ensures Calm() ==> a == Answer(false, false, true, true)
    {
      a := answers(asked);
      asked := asked + 1;
    }

    /** Controllers, backends and agents in new processes. */
    method Restart()
      requires Valid()
      modifies `token, `attempts, `poisoned
      ensures Valid() && token == None && attempts == {} && !poisoned
    {
      token, attempts, poisoned := None, {}, false;
    }

    /** An acknowledged ATTEMPTED event yields the token for one dispatch. */
    method Persist(row: Row) returns (ok: bool)
      requires Valid()
      modifies `asked, `rows, `token
      ensures Valid()
      ensures ok ==> rows == old(rows) + [row] && (row.kind == ATTEMPTED ==> token == Some(row.action))
      ensures rows == old(rows) || rows == old(rows) + [row]
      ensures token == old(token) || (ok && row.kind == ATTEMPTED && token == Some(row.action))
      ensures Calm() ==> ok
    {
      var a := Ask();
      if a.before { return false; }
      RecordsGrow(plan, rows, rows + [row], latches, latches, trace);
      rows := rows + [row];
      if a.after { return false; }
      if row.kind == ATTEMPTED { token := Some(row.action); }
      return true;
    }

    method Observe(node: string) returns (seen: Option<bool>)
      requires Valid()
      modifies `asked, `trace, `poisoned
      ensures Valid()
      ensures seen.Some? ==> trace == old(trace) + [Watched(node, seen.value)]
      ensures seen == None ==> trace == old(trace)
      ensures Calm() && !old(poisoned) ==> seen == Some(true) && !poisoned
    {
      if poisoned { return None; }
      var a := Ask();
      poisoned := !a.valid;
      if !a.valid { return None; }
      ItemGoesIn(plan, rows, latches, trace, Watched(node, a.blocked));
      trace := trace + [Watched(node, a.blocked)];
      return Some(a.blocked);
    }

    /** DurableNodeAgent.request: the create-only latch before anything else. */
    method NodeRequest(action: Action) returns (seen: Option<bool>)
      requires Valid()
      requires AttemptOnRecord(rows, action)
      requires action.step == SERVICE_DRAIN ==> AllBlocked()
      modifies `asked, `latches, `trace, `attempts
      ensures Valid() && OnlyOf(old(trace), trace, action) && |trace| <= |old(trace)| + 3
      ensures Began(action) in trace[|old(trace)|..] ==> action in latches && action !in old(latches)
      ensures seen.Some? ==> |trace| == |old(trace)| + 3 && trace[|old(trace)| + 1] == Began(action)
                             && trace[|old(trace)| + 2] == Watched(action.node, seen.value)
      ensures latches <= old(latches) + {action} && attempts <= old(attempts) + {action}
      ensures Calm() && action !in old(latches) && action !in old(attempts) ==> seen == Some(true)
    {
      hide Justified, AllSeenBlocked, AttemptOnRecord;
      if action in latches { return None; }
      var a := Ask();
      if a.before { return None; }
      RecordsGrow(plan, rows, rows, latches, latches + {action}, trace);
      NotBegun(plan, rows, latches, trace, action);
      latches := latches + {action};
      if a.after { return None; }
      seen := AgentRequest(action);
    }

    /** NodeAgent.request: a look at the node, the commands, another look. */
    method AgentRequest(action: Action) returns (seen: Option<bool>)
      requires Valid() && action in latches && Began(action) !in trace
      requires AttemptOnRecord(rows, action)
      requires action.step == SERVICE_DRAIN ==> AllBlocked()
      modifies `asked, `trace, `attempts
      ensures Valid() && OnlyOf(old(trace), trace, action) && |trace| <= |old(trace)| + 3
      ensures seen.Some? ==> |trace| == |old(trace)| + 3 && trace[|old(trace)| + 1] == Began(action)
                             && trace[|old(trace)| + 2] == Watched(action.node, seen.value)
      ensures attempts <= old(attempts) + {action}
      ensures Calm() && action !in old(attempts) ==> seen == Some(true)
    {
      hide Justified, AllSeenBlocked, AttemptOnRecord;
      if action in attempts { return None; }
      var a := Ask();
      if !a.valid { return None; }
      ItemGoesIn(plan, rows, latches, trace, Watched(action.node, a.blocked));
      if AllBlocked() { SeenStaysSeen(plan, trace, trace + [Watched(action.node, a.blocked)]); }
      trace := trace + [Watched(action.node, a.blocked)];
      attempts := attempts + {action};
      if action.step == SERVICE_DRAIN && !a.blocked { return None; }
      ItemGoesIn(plan, rows, latches, trace, Began(action));
      trace := trace + [Began(action)];
      a := Ask();
      if a.before || !a.valid { return None; }
      ItemGoesIn(plan, rows, latches, trace, Watched(action.node, a.blocked));
      trace := trace + [Watched(action.node, a.blocked)];
      return Some(a.blocked);
    }

    /** Backend._call for an effect: the last event on record must be the matching
        attempt, and its token unused. */
    method Call(action: Action) returns (seen: Option<bool>)
      requires Valid()
      requires action.step == SERVICE_DRAIN ==> AllBlocked()
      modifies `asked, `latches, `trace, `attempts, `token, `poisoned
      ensures Valid()
      ensures old(trace) <= trace && |trace| <= |old(trace)| + 3
      ensures trace != old(trace) ==>
                && old(token) == Some(action) && token == None
                && |rows| > 0 && rows[|rows| - 1].kind == ATTEMPTED && rows[|rows| - 1].action == action
      ensures OnlyOf(old(trace), trace, action)
      ensures seen.Some? ==> |trace| == |old(trace)| + 3 && trace[|old(trace)| + 1] == Began(action)
                             && trace[|old(trace)| + 2] == Watched(action.node, seen.value)
      ensures latches <= old(latches) + {action} && attempts <= old(attempts) + {action}
      ensures Calm() && action !in old(latches) && action !in old(attempts) && !old(poisoned) && old(token) == Some(action)
              && |rows| >= 2 && rows[|rows| - 1].kind == ATTEMPTED && rows[|rows| - 1].action == action
              ==> seen == Some(true) && !poisoned
    {
      if poisoned { return None; }
      poisoned := true;
      if |rows| < 2 || rows[|rows| - 1].kind != ATTEMPTED || rows[|rows| - 1].action != action { return None; }
      if token != Some(action) { return None; }
      token := None;
      assert rows[|rows| - 1].kind == ATTEMPTED && rows[|rows| - 1].action == action;
      seen := NodeRequest(action);
      poisoned := seen == None;
    }

    /** Controller.run.  Only an empty journal is worked on; what a run that was cut
        left behind is refused.  A run records the three events of each action in
        order, and where nothing goes wrong it gets through them all. */
    method RunController() returns (held: bool)
      requires Valid()
      modifies this
      ensures Valid()
      ensures old(rows) != [] ==> !held && rows == old(rows) && trace == old(trace)
      ensures old(trace) <= trace
      ensures old(rows) == [] ==> rows <= RowsOf(Actions(plan))
      ensures held ==> rows == RowsOf(Actions(plan))
      ensures Calm() && DistinctNodes(plan) && old(rows) == [] && old(latches) == {} && old(attempts) == {} && !old(poisoned)
              ==> held
      ensures held ==> forall i | 0 <= i < |Actions(plan)| && Actions(plan)[i].step != FINAL_AUDIT ::
                Began(Actions(plan)[i]) in trace
    {
      hide Actions;
      held := false;
      if rows != [] { return; }
      var ok := ObserveAll(false);
      if !ok { return; }
      var actions, n := Actions(plan), |plan.participants|;
      ActionSteps(plan);
      for index := 0 to |actions|
        invariant Valid() && old(trace) <= trace
        invariant rows == RowsOf(actions)[..3 * index]
        invariant Ready(actions, index) || !old(Ready(actions, 0)) || !Calm() || !DistinctNodes(plan)
        invariant index > n ==> AllBlocked()
        invariant forall i | 0 <= i < index && actions[i].step != FINAL_AUDIT :: Began(actions[i]) in trace
      {
        ghost var before := trace;
        if index == n {
          ok := ObserveAll(true);
          if !ok { return; }
        }
        ghost var middle := trace;
        ok := Act(index, actions[index]);
        if !ok { return; }
        if index >= n { SeenStaysSeen(plan, middle, trace); }
        forall i | 0 <= i < index && actions[i].step != FINAL_AUDIT ensures Began(actions[i]) in trace {
          assert Began(actions[i]) in before && before <= trace;
        }
      }
      held := true;
    }

    /** Nothing is latched or attempted but what the first so many actions did. */
    ghost predicate Ready(actions: seq<Action>, index: nat)
      reads `latches, `attempts, `poisoned
    {
      && index <= |actions| && !poisoned
      && (forall a | a in latches + attempts :: a in actions[..index])
    }

    /** All nodes, one after the other; before the first drain each must show its
        entry blocked. */
    method ObserveAll(gate: bool) returns (ok: bool)
      requires Valid()
      modifies `asked, `trace, `poisoned
      ensures Valid() && old(trace) <= trace
      ensures ok && gate ==> AllBlocked()
      ensures Calm() && !old(poisoned) ==> ok && !poisoned
    {
      for r := 0 to |plan.participants|
        invariant Valid() && old(trace) <= trace
        invariant Calm() && !old(poisoned) ==> !poisoned
        invariant forall k | |old(trace)| <= k < |trace| :: trace[k].Watched?
        invariant gate ==> forall i | 0 <= i < r :: ShownSince(trace, |old(trace)|, plan.participants[i].node)
      {
        ghost var before := trace;
        var seen := Observe(plan.participants[r].node);
        if seen == None || (gate && !seen.value) { return false; }
        if gate {
          assert trace[|before|] == Watched(plan.participants[r].node, true);
          forall i | 0 <= i < r ensures ShownSince(trace, |old(trace)|, plan.participants[i].node) {
            assert ShownSince(before, |old(trace)|, plan.participants[i].node);
            var k :| |old(trace)| <= k < |before| && before[k] == Watched(plan.participants[i].node, true);
            assert trace[k] == before[k];
          }
        }
      }
      if gate {
        forall r | 0 <= r < |plan.participants| ensures SeenBlocked(trace, plan.participants[r].node) {
          assert ShownSince(trace, |old(trace)|, plan.participants[r].node);
          var k :| |old(trace)| <= k < |trace| && trace[k] == Watched(plan.participants[r].node, true);
          assert NoEntryAfter(trace, k);
        }
      }
      return true;
    }

    /** One action: intent and attempt on record, the call, the receipt on record. */
    method Act(index: nat, action: Action) returns (ok: bool)
      requires Valid() && index < |Actions(plan)| && action == Actions(plan)[index]
      requires rows == RowsOf(Actions(plan))[..3 * index]
      requires action.step == SERVICE_DRAIN ==> AllBlocked()
      modifies this
      ensures Valid() && OnlyOf(old(trace), trace, action)
      ensures rows <= RowsOf(Actions(plan)) && (ok ==> |rows| == 3 * index + 3)
      ensures Calm() && DistinctNodes(plan) && old(Ready(Actions(plan), index)) ==> ok && Ready(Actions(plan), index + 1)
      ensures ok && action.step != FINAL_AUDIT ==> Began(action) in trace[|old(trace)|..]
                                                   && trace[|trace| - 1] == Watched(action.node, true)
    {
      hide Actions;
      RowsInOrder(Actions(plan), index);
      if DistinctNodes(plan) { ActionsDiffer(plan, index); }
      ok := Persist(Row(INTENT_DURABLE, index, action));
      if !ok { return; }
      ok := Persist(Row(ATTEMPTED, index, action));
      if !ok { return; }
      var seen: Option<bool>;
      if action.step == FINAL_AUDIT { seen := Observe(action.node); } else { seen := Call(action); }
      if seen == None || (action.step != FINAL_AUDIT && !seen.value) { return false; }
      ok := Persist(Row(OBSERVED_COMPLETE, index, action));
    }

    /** Any number of runs, restarted in between. */
    method Lifetime(runs: nat)
      requires Valid()
      modifies this
      ensures Valid() && old(trace) <= trace
    {
      for i := 0 to runs
        invariant Valid() && old(trace) <= trace
      {
        Restart();
        var held := RunController();
      }
    }
  }

  lemma {:induction false} RowsInOrder(actions: seq<Action>, index: nat)
    requires index < |actions|
    ensures var rows, i := RowsOf(actions), 3 * index;
            && |rows| == 3 * |actions|
            && rows[..i + 1] == rows[..i] + [Row(INTENT_DURABLE, index, actions[index])]
            && rows[..i + 2] == rows[..i + 1] + [Row(ATTEMPTED, index, actions[index])]
            && rows[..i + 3] == rows[..i + 2] + [Row(OBSERVED_COMPLETE, index, actions[index])]
  {
    var i := 3 * index;
    assert i / 3 == (i + 1) / 3 == (i + 2) / 3 == index;
    assert i % 3 == 0 && (i + 1) % 3 == 1 && (i + 2) % 3 == 2;
  }

  lemma {:induction false} ActionsDiffer(plan: Plan, index: nat)
    requires DistinctNodes(plan) && index < |Actions(plan)|
    ensures Actions(plan)[index] !in Actions(plan)[..index]
  {}

  lemma {:induction false} ActionSteps(plan: Plan)
    ensures |Actions(plan)| == 3 * |plan.participants|
    ensures forall i | 0 <= i < |Actions(plan)| :: Actions(plan)[i].step == SERVICE_DRAIN ==> i >= |plan.participants|
    ensures forall i | |plan.participants| <= i < |Actions(plan)| :: Actions(plan)[i].step != ENTRY_BLOCK
  {}
}
