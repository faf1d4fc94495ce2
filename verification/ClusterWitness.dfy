/** Concrete runs: the model dispatches, and the lease theorem's exception is real. */
module ClusterWitness {
  import opened Common
  import opened Lease
  import opened Durable
  import opened Cluster
  import opened ClusterInvariant
  import R = Registry
  import Theorems = ClusterTheorems

  const CONFIG := Config(1, 1, false, 0)
  const EMPTY := State(0, Tables(CONFIG, map[], map[]), None, map[], map[])

  /** A run extended by one enabled action. */
  lemma Extend(states: seq<State>, actions: seq<Action>, a: Action)
    requires IsRun(states, actions) && Enabled(states[|states| - 1], a)
    ensures IsRun(states + [Step(states[|states| - 1], a)], actions + [a])
  {
    hide Enabled, Step;
    var more := states + [Step(states[|states| - 1], a)];
    forall i | 0 <= i < |actions + [a]|
      ensures Enabled(more[i], (actions + [a])[i]) && more[i + 1] == Step(more[i], (actions + [a])[i])
    {
    }
  }

  /** Node 7 registers at boot time 100 with a 30 second lease and a margin of 5. */
  lemma Registered() returns (states: seq<State>, actions: seq<Action>)
    ensures IsRun(states, actions)
    ensures var s := states[|states| - 1];
            && s.tables == Tables(CONFIG, map[7 := NodeRow(false, 1, 1, 30)], map[])
            && s.pending == None
            && s.now == 0
            && s.coordinators == map[]
            && s.nodes == map[7 := NODE]
  {
    states, actions := [EMPTY], [];
    var a0 := OnMembership(ABoot(7, CONFIG, 30, 5, 100));
    assert Enabled(EMPTY, a0);
    Extend(states, actions, a0);
    var s1 := Step(EMPTY, a0);
    states, actions := states + [s1], actions + [a0];
    var a1 := OnMembership(ARegister(7, Committed));
    assert Enabled(s1, a1);
    Extend(states, actions, a1);
    var s2 := Step(s1, a1);
    states, actions := states + [s2], actions + [a1];
    var a2 := OnMembership(AInstallLease(7, true));
    assert Enabled(s2, a2);
    Extend(states, actions, a2);
    states, actions := states + [Step(s2, a2)], actions + [a2];
  }

  /**
    The exception of the lease theorem is reachable: between the commit of its own release and its
    local fence a node still passes its check although its row is gone.
   */
  lemma ReleaseWindow() returns (states: seq<State>, actions: seq<Action>)
    ensures IsRun(states, actions)
    ensures var s := states[|states| - 1];
            7 in s.nodes && CheckOk(s.nodes[7]) && 7 !in s.tables.nodes
  {
    states, actions := Registered();
    var s0 := states[|states| - 1];
    var a0 := OnMembership(ABeginDrain(7));
    assert Enabled(s0, a0);
    Extend(states, actions, a0);
    var s1 := Step(s0, a0);
    states, actions := states + [s1], actions + [a0];
    var a1 := OnMembership(ADrain(7, Committed));
    assert Enabled(s1, a1);
    Extend(states, actions, a1);
    var s2 := Step(s1, a1);
    states, actions := states + [s2], actions + [a1];
    var a2 := OnMembership(ALeave(7, Committed));
    assert Enabled(s2, a2);
    Extend(states, actions, a2);
    states, actions := states + [Step(s2, a2)], actions + [a2];
  }

  const NODE := Node(LeaseState(125, false, false, true), CONFIG, 30, 5, 100, -100, Quiet, false, map[])

  const ACCEPTED :=
    MachineRow(Verifying, 1, None, map[3 := Token(Consumed, 900)], map[4 := Attempt(7, 1, Open, 120)], map[], 1, 0,
      None)

  const ENROLLED :=
    MachineRow(Verifying, 1, Some(5), map[3 := Token(Consumed, 900)], map[4 := Attempt(7, 1, Activated, 120)],
               map[6 := Binding(8, 1, true)], 1, 0, None)

  /** Node 7 alone, serving, with Machine 1 in the given row. */
  predicate Serves(s: State, row: MachineRow)
  {
    s.tables == Tables(CONFIG, map[7 := NodeRow(false, 1, 1, 30)], map[1 := row]) && s.pending == None && s.now == 0
    && s.coordinators == map[] && s.nodes == map[7 := NODE]
  }

  /** Machine 1 is created, and its token accepted by node 7. */
  lemma Accepted() returns (states: seq<State>, actions: seq<Action>)
    ensures IsRun(states, actions) && Serves(states[|states| - 1], ACCEPTED)
  {
    states, actions := Registered();
    var s0 := states[|states| - 1];
    var a0 := OnEnrollment(ACreate(7, 1, 3, Committed));
    assert Enabled(s0, a0);
    Extend(states, actions, a0);
    var s1 := Step(s0, a0);
    states, actions := states + [s1], actions + [a0];
    var a1 := OnEnrollment(AEnroll(7, 1, AcceptToken(3, 4, 7, 0), Committed));
    assert Enabled(s1, a1);
    Extend(states, actions, a1);
    var s2 := Step(s1, a1);
    states, actions := states + [s2], actions + [a1];
    var row := s2.tables.machines[1];
    assert row.tokens == ACCEPTED.tokens && row.attempts == ACCEPTED.attempts && row.bindings == ACCEPTED.bindings;
    assert s2.tables.machines == map[1 := ACCEPTED];
  }

  /** Machine 1 is enrolled by node 7. */
  lemma Enrolled() returns (states: seq<State>, actions: seq<Action>)
    ensures IsRun(states, actions) && Serves(states[|states| - 1], ENROLLED)
  {
    states, actions := Accepted();
    var s := states[|states| - 1];
    var a := OnEnrollment(AEnroll(7, 1, Activate(4, 7, 1, 6, 8, 5, true, 0), Committed));
    assert Enabled(s, a);
    Extend(states, actions, a);
    var s' := Step(s, a);
    states, actions := states + [s'], actions + [a];
    var row := s'.tables.machines[1];
    assert row.tokens == ENROLLED.tokens && row.attempts == ENROLLED.attempts && row.bindings == ENROLLED.bindings;
    assert s'.tables.machines == map[1 := ENROLLED];
  }

  /** Node 7 reserves a claim of Machine 1 for connection 9. */
  lemma Reserved() returns (states: seq<State>, actions: seq<Action>)
    ensures IsRun(states, actions)
    ensures var s := states[|states| - 1];
            s.tables == Tables(CONFIG, map[7 := NodeRow(false, 1, 1, 30)], map[1 := ENROLLED]) && s.pending == None
              && s.now == 0
            && 7 in s.nodes && s.nodes[7] == NODE.(slots := s.nodes[7].slots)
               && StageOk(s, 7, 1, 9, {ClaimStage.Reserved})
            && s.nodes[7].slots[1].entry == R.Entry(None, {9}, None) && s.nodes[7].slots[1].claims.Keys == {9}
  {
    states, actions := Enrolled();
    var s := states[|states| - 1];
    var a := OnOwnership(AReserve(7, 1, 9));
    assert Enabled(s, a);
    Extend(states, actions, a);
    var s' := Step(s, a);
    states, actions := states + [s'], actions + [a];
    assert s'.nodes[7].slots[1].entry.pending == {9} && s'.nodes[7].slots[1].claims.Keys == {9};
  }

  /** Node 7 claims Machine 1 for connection 9. */
  lemma Owned() returns (states: seq<State>, actions: seq<Action>)
    ensures IsRun(states, actions)
    ensures var s := states[|states| - 1];
            && 7 in s.nodes
            && s.nodes[7].lease == LeaseState(125, false, false, true) && s.nodes[7].boot == 100
            && AtClaimed(s, 7, 1, 9) && s.nodes[7].slots[1].claims[9] == Claimed(Route(1, 1, 9))
            && s.nodes[7].slots[1].entry == R.Entry(None, {9}, None)
  {
    states, actions := Reserved();
    var s := states[|states| - 1];
    var a := OnOwnership(AClaim(7, 1, 9, 1, Committed));
    assert BoundAt(ENROLLED, 1) by { assert 6 in ENROLLED.bindings; }
    assert Enabled(s, a);
    Extend(states, actions, a);
    states, actions := states + [Step(s, a)], actions + [a];
  }

  /** Dispatch is reachable, so exclusive ownership is not vacuous. */
  lemma Dispatches() returns (states: seq<State>, actions: seq<Action>)
    ensures IsRun(states, actions)
    ensures Theorems.CanDispatch(states[|states| - 1], 7, 1, Route(1, 1, 9))
  {
    states, actions := Owned();
    var s := states[|states| - 1];
    var a := OnOwnership(AInstallTunnel(7, 1, 9));
    assert Enabled(s, a);
    Extend(states, actions, a);
    states, actions := states + [Step(s, a)], actions + [a];
  }
}
