/** What every run of the cluster guarantees. */
module ClusterTheorems {
  import opened Common
  import opened Lease
  import opened Durable
  import opened Cluster
  import opened ClusterInvariant
  import R = Registry
  import Enrollment
  import Membership = ClusterMembership
  import Ownership = ClusterOwnership
  import Invalidation = ClusterInvalidation

  lemma StepHolds(s: State, a: Action)
    requires Inv(s) && Enabled(s, a)
    ensures Inv(Step(s, a))
  {
    hide Inv;
    match a
    case OnMembership(x) => Membership.MembershipKeeps(s, x);
    case OnEnrollment(x) => Invalidation.EnrollmentKeeps(s, x);
    case OnOwnership(x) => Ownership.OwnershipKeeps(s, x);
    case OnInvalidation(x) => Invalidation.InvalidationKeeps(s, x);
  }

  lemma {:induction false} RunHolds(states: seq<State>, actions: seq<Action>, i: nat)
    requires IsRun(states, actions) && i < |states|
    ensures Inv(states[i])
  {
    hide Inv, Enabled, Step;
    if i == 0 {
      InitHolds(states[0]);
    } else {
      RunHolds(states, actions, i - 1);
      StepHolds(states[i - 1], actions[i - 1]);
    }
  }

  // ---- Exclusive ownership

  /** The node would admit work on this route now: its check passes and the barrier is open. */
  ghost predicate CanDispatch(s: State, n: Incarnation, m: MachineId, r: Route)
  {
    n in s.nodes && CheckOk(s.nodes[n]) && Holds(SlotOf(s.nodes[n], m), r)
  }

  /** A dispatcher is exactly the durable owner: incarnation, connection, epoch and revision. */
  lemma DispatcherIsOwner(states: seq<State>, actions: seq<Action>, i: nat, n: Incarnation, m: MachineId, r: Route)
    requires IsRun(states, actions) && i < |states| && CanDispatch(states[i], n, m, r)
    ensures m in states[i].tables.machines && Names(states[i].tables.machines[m], n, r)
  {
    RunHolds(states, actions, i);
    var s := states[i];
    Ownership.SlotFacts(s, n, m);
    assert NodeOk(n, s.nodes[n], s.tables, s.now) by {
      hide SlotsOk, CoordinatorsOk, TablesOk, NodeOk;
    }
    Membership.CheckMeansAuthority(n, s.nodes[n], s.tables, s.now);
  }

  /** In every reachable state at most one node dispatches for a Machine, over one route. */
  lemma OneDispatcher(states: seq<State>, actions: seq<Action>, i: nat, m: MachineId,
                      n: Incarnation, r: Route, n': Incarnation, r': Route)
    requires IsRun(states, actions) && i < |states|
    requires CanDispatch(states[i], n, m, r) && CanDispatch(states[i], n', m, r')
    ensures n == n' && r == r'
  {
    hide CanDispatch, IsRun;
    DispatcherIsOwner(states, actions, i, n, m, r);
    DispatcherIsOwner(states, actions, i, n', m, r');
  }

  // ---- Leases and configuration

  /**
    A passing local check proves an unexpired database lease, over every sequence of successful,
    failed and ambiguous renewals. The row may be missing only after the node's own release.
   */
  lemma CheckProvesLease(states: seq<State>, actions: seq<Action>, i: nat, n: Incarnation)
    requires IsRun(states, actions) && i < |states|
    requires n in states[i].nodes && CheckOk(states[i].nodes[n])
    ensures n in states[i].tables.nodes ==> Leased(states[i].tables, n, states[i].now)
    ensures n !in states[i].tables.nodes ==> states[i].nodes[n].leaving
  {
    RunHolds(states, actions, i);
    hide SlotsOk, CoordinatorsOk, TablesOk;
    assert NodeOk(n, states[i].nodes[n], states[i].tables, states[i].now);
  }

  /**
    Whatever a node dispatches rests on its own unexpired lease: after its release has committed the
    check may still pass, but there is nothing left for it to dispatch on.
   */
  lemma DispatchProvesLease(states: seq<State>, actions: seq<Action>, i: nat, n: Incarnation, m: MachineId, r: Route)
    requires IsRun(states, actions) && i < |states| && CanDispatch(states[i], n, m, r)
    ensures Leased(states[i].tables, n, states[i].now)
  {
    DispatcherIsOwner(states, actions, i, n, m, r);
    CheckProvesLease(states, actions, i, n);
    RunHolds(states, actions, i);
    hide SlotsOk, NodesOk, CoordinatorsOk, WellFormed, IsRun;
    assert TablesOk(states[i].tables, states[i].now, states[i].nodes.Keys);
    assert states[i].tables.machines[m].owner.Some?;
  }

  /**
    A granted renewal whose answer is handled before the old deadline and before the new one
    installs: the node is not fenced and its checks pass.
   */
  lemma TimelyRenewalInstalls(states: seq<State>, actions: seq<Action>, i: nat, n: Incarnation)
    requires IsRun(states, actions) && i < |actions| && actions[i] == OnMembership(AInstallLease(n, true))
    requires var node := states[i].nodes[n];
             !node.lease.fenced && (node.lease.deadline == 0 || node.boot < node.lease.deadline)
             && node.boot + node.margin < node.renewal.before + node.ttl && node.boot < U64_MAX
    ensures n in states[i + 1].nodes && CheckOk(states[i + 1].nodes[n]) && states[i + 1].nodes[n].lease.ready
  {
    assert Enabled(states[i], actions[i]) && states[i + 1] == Step(states[i], actions[i]);
  }

  /** Every unexpired node row carries the stored configuration, so the two owner tests agree. */
  lemma LeasedRowsAreCurrent(states: seq<State>, actions: seq<Action>, i: nat, n: Incarnation, m: MachineId)
    requires IsRun(states, actions) && i < |states|
    ensures var t := states[i].tables;
            Leased(t, n, states[i].now) ==> t.nodes[n].epoch == t.config.epoch && t.nodes[n].build == t.config.build
    ensures var t := states[i].tables;
            m in t.machines ==>
              (OwnerCurrent(t, t.machines[m], t.config, states[i].now) <==>
               OwnerLeased(t, t.machines[m], states[i].now))
  {
    RunHolds(states, actions, i);
    hide SlotsOk, NodesOk, CoordinatorsOk, WellFormed;
    var t := states[i].tables;
    if m in t.machines {
      Invalidation.OwnerTestsAgree(t, t.machines[m], t.config, states[i].now, states[i].nodes.Keys);
    }
  }

  /** Every durable Machine of a reachable state satisfies the enrollment invariant. */
  lemma RowsAreWellFormed(states: seq<State>, actions: seq<Action>, i: nat, m: MachineId)
    requires IsRun(states, actions) && i < |states| && m in states[i].tables.machines
    ensures WellFormed(states[i].tables.machines[m])
  {
    RunHolds(states, actions, i);
    hide SlotsOk, NodesOk, CoordinatorsOk, WellFormed;
  }

  // ---- Transitions on the owner

  /** From its return until its finish a transition has the Machine to itself. */
  lemma TransitionIsQuiet(states: seq<State>, actions: seq<Action>, i: nat, n: Incarnation, m: MachineId, c: Connection)
    requires IsRun(states, actions) && i < |states| && InSlot(states[i], n, m)
    requires var tr := states[i].nodes[n].slots[m].transition; tr.Prepared? || tr.Undoing? || tr.Settled?
    ensures var slot := states[i].nodes[n].slots[m];
            && slot.entry.tunnel == None
            && slot.entry.pending == {}
            && R.Reserve(slot.entry, c) == None
            && !Holds(slot, slot.transition.route)
  {
    RunHolds(states, actions, i);
    Ownership.SlotFacts(states[i], n, m);
  }

  /** A closing tunnel finds no exit record or its own transition; it is never refused. */
  lemma ReleaseIsNeverRefused(states: seq<State>, actions: seq<Action>, i: nat, n: Incarnation, m: MachineId, r: Route)
    requires IsRun(states, actions) && i < |states| && Ending(states[i], n, m, r)
    ensures var exit := states[i].nodes[n].slots[m].entry.exit;
            exit == None || exit == Some(R.Transitioning(r))
    ensures R.ReleaseDecision(states[i].nodes[n].slots[m].entry, r).Some?
  {
    RunHolds(states, actions, i);
    Ownership.SlotFacts(states[i], n, m);
  }

  // ---- Monotone epochs

  lemma MembershipAhead(s: State, a: MembershipAction)
    requires Inv(s) && MembershipEnabled(s, a)
    ensures Ahead(s.tables, MembershipStep(s, a).tables)
  {
    hide Holding;
  }

  lemma OwnershipAhead(s: State, a: OwnershipAction)
    requires Inv(s) && OwnershipEnabled(s, a)
    ensures Ahead(s.tables, OwnershipStep(s, a).tables)
  {
    hide Holding;
  }

  lemma RowAhead(t: Tables, m: MachineId, row: MachineRow)
    requires m in t.machines ==> Forward(t.machines[m], row)
    ensures Ahead(t, WithMachine(t, m, row))
  {
  }

  lemma EnrollAhead(s: State, m: MachineId, op: Transaction)
    requires Inv(s) && m in s.tables.machines && Apply(s.tables.machines[m], op).Some?
    ensures Ahead(s.tables, WithMachine(s.tables, m, Apply(s.tables.machines[m], op).value))
  {
    Enrollment.StepForward(s.tables.machines[m], op);
    hide Holding, Forward, Apply;
    RowAhead(s.tables, m, Apply(s.tables.machines[m], op).value);
  }

  lemma EnrollmentAhead(s: State, a: EnrollmentAction)
    requires Inv(s) && EnrollmentEnabled(s, a)
    ensures Ahead(s.tables, EnrollmentStep(s, a).tables)
  {
    hide Holding, Apply;
    match a
    case AEnroll(_, m, op, _) =>
      hide Inv, Ahead;
      EnrollAhead(s, m, op);
      AheadSame(s.tables);
    case ACreate(_, m, token, _) =>
      RowAhead(s.tables, m, Created(token, s.now));
    case AOrphan(n, m, target, revision, _) =>
      RowAhead(s.tables, m, InvalidRow(s, n, m, target, NoValidOwner(revision)).value);
  }

  lemma AheadSame(t: Tables)
    ensures Ahead(t, t)
  {
  }

  lemma InvalidationAhead(s: State, a: InvalidationAction)
    requires Inv(s) && InvalidationEnabled(s, a)
    ensures Ahead(s.tables, InvalidationStep(s, a).tables)
  {
    hide Holding;
  }

  /** One step moves every Machine's revisions and epochs forward and keeps its pinned key. */
  lemma StepAhead(s: State, a: Action)
    requires Inv(s) && Enabled(s, a)
    ensures Ahead(s.tables, Step(s, a).tables)
  {
    hide Inv, Ahead;
    match a
    case OnMembership(x) => MembershipAhead(s, x);
    case OnEnrollment(x) => EnrollmentAhead(s, x);
    case OnOwnership(x) => OwnershipAhead(s, x);
    case OnInvalidation(x) => InvalidationAhead(s, x);
  }

  /** Epochs and revisions never go back, and while an epoch lasts its owner can only be cleared. */
  ghost predicate Later(row: MachineRow, next: MachineRow)
  {
    && row.epoch <= next.epoch
    && row.revision <= next.revision
    && row.ownerRevision <= next.ownerRevision
    && (row.hostKey.Some? ==> next.hostKey == row.hostKey)
    && (row.epoch == next.epoch && next.owner.Some? ==>
          next.owner == row.owner && next.ownerRevision == row.ownerRevision)
  }

  lemma {:induction false} RowsMoveForward(states: seq<State>, actions: seq<Action>, i: nat, j: nat, m: MachineId)
    requires IsRun(states, actions) && i <= j < |states| && m in states[i].tables.machines
    ensures m in states[j].tables.machines
    ensures Later(states[i].tables.machines[m], states[j].tables.machines[m])
    decreases j
  {
    hide Inv, Enabled, Step;
    if i < j {
      RowsMoveForward(states, actions, i, j - 1, m);
      RunHolds(states, actions, j - 1);
      StepAhead(states[j - 1], actions[j - 1]);
    }
  }

  /**
    No route identity recurs: two states whose owner rows carry the same epoch name the same node
    and route, and so does every state in between. An exact release or invalidation therefore
    matches only the claim that created the route.
   */
  lemma TenureIsUnbroken(states: seq<State>, actions: seq<Action>, i: nat, k: nat, j: nat, m: MachineId,
                         n: Incarnation, r: Route, n': Incarnation, r': Route)
    requires IsRun(states, actions) && i <= k <= j < |states|
    requires m in states[i].tables.machines && Names(states[i].tables.machines[m], n, r)
    requires m in states[j].tables.machines && Names(states[j].tables.machines[m], n', r')
    requires r.epoch == r'.epoch
    ensures n == n' && r == r'
    ensures m in states[k].tables.machines && Names(states[k].tables.machines[m], n, r)
  {
    hide IsRun;
    RowsMoveForward(states, actions, i, k, m);
    RowsMoveForward(states, actions, k, j, m);
  }

  /** A committed claim takes an epoch greater than every epoch the Machine has had. */
  lemma ClaimsClimb(states: seq<State>, actions: seq<Action>, i: nat, j: nat, m: MachineId,
                    n: Incarnation, c: Connection, revision: int)
    requires IsRun(states, actions) && i <= j < |actions| && m in states[i].tables.machines
    requires actions[j] == OnOwnership(AClaim(n, m, c, revision, Committed))
    ensures m in states[j + 1].tables.machines
    ensures states[j + 1].tables.machines[m].epoch > states[i].tables.machines[m].epoch
    ensures Names(states[j + 1].tables.machines[m], n, Route(revision, states[j + 1].tables.machines[m].epoch, c))
  {
    RowsMoveForward(states, actions, i, j, m);
    assert Enabled(states[j], actions[j]) && states[j + 1] == Step(states[j], actions[j]);
  }

  // ---- Invalidation outcomes

  ghost predicate Ended(s: State, n: Incarnation, m: MachineId, r: Route)
  {
    n in s.nodes && r in SlotOf(s.nodes[n], m).ended
  }

  /** Ended transitions stay on record, and the one held in `s` is still held or has joined them. */
  ghost predicate Tracked(s: State, s': State, n: Incarnation, m: MachineId)
    requires InSlot(s, n, m)
  {
    && InSlot(s', n, m)
    && s.nodes[n].slots[m].ended <= s'.nodes[n].slots[m].ended
    && var tr := s.nodes[n].slots[m].transition;
    && var next := s'.nodes[n].slots[m];
    (tr.Idle? || (!next.transition.Idle? && next.transition.route == tr.route) || tr.route in next.ended)
  }

  lemma MembershipTracks(s: State, a: MembershipAction, n: Incarnation, m: MachineId)
    requires MembershipEnabled(s, a) && InSlot(s, n, m)
    ensures Tracked(s, MembershipStep(s, a), n, m)
  {
  }

  lemma EnrollmentTracks(s: State, a: EnrollmentAction, n: Incarnation, m: MachineId)
    requires EnrollmentEnabled(s, a) && InSlot(s, n, m)
    ensures Tracked(s, EnrollmentStep(s, a), n, m)
  {
  }

  predicate ClaimSide(a: OwnershipAction)
  {
    a.AReserve? || a.AClaim? || a.AClaimRefused? || a.AClaimLearn? || a.AFinishPending? || a.AInstallTunnel?
      || a.AWithdraw?
    || a.AWithdrawFails?
  }

  lemma ClaimTracks(s: State, a: OwnershipAction, n: Incarnation, m: MachineId)
    requires OwnershipEnabled(s, a) && InSlot(s, n, m) && ClaimSide(a)
    ensures Tracked(s, OwnershipStep(s, a), n, m)
  {
    hide ValidServing, ValidReleasing, DoClaim, DoRelease, IsReady;
  }

  lemma ReleaseTracks(s: State, a: OwnershipAction, n: Incarnation, m: MachineId)
    requires OwnershipEnabled(s, a) && InSlot(s, n, m) && !ClaimSide(a)
    ensures Tracked(s, OwnershipStep(s, a), n, m)
  {
    hide ValidServing, ValidReleasing, DoClaim, DoRelease, IsReady;
  }

  lemma OwnershipTracks(s: State, a: OwnershipAction, n: Incarnation, m: MachineId)
    requires OwnershipEnabled(s, a) && InSlot(s, n, m)
    ensures Tracked(s, OwnershipStep(s, a), n, m)
  {
    hide Tracked, OwnershipStep, OwnershipEnabled, ClaimSide;
    if ClaimSide(a) {
      ClaimTracks(s, a, n, m);
    } else {
      ReleaseTracks(s, a, n, m);
    }
  }

  lemma InvalidationTracks(s: State, a: InvalidationAction, n: Incarnation, m: MachineId)
    requires InvalidationEnabled(s, a) && InSlot(s, n, m)
    requires !s.nodes[n].slots[m].transition.Idle? ==> s.nodes[n].slots[m].entry.exit.Some?
    ensures Tracked(s, InvalidationStep(s, a), n, m)
  {
  }

  /** No transition disappears: each step keeps it or records its end, and records are kept. */
  lemma TransitionsEndOnRecord(states: seq<State>, actions: seq<Action>, i: nat, n: Incarnation, m: MachineId)
    requires IsRun(states, actions) && i < |actions| && InSlot(states[i], n, m)
    ensures Tracked(states[i], states[i + 1], n, m)
  {
    var s := states[i];
    assert !s.nodes[n].slots[m].transition.Idle? ==> s.nodes[n].slots[m].entry.exit.Some? by {
      RunHolds(states, actions, i);
      Ownership.SlotFacts(s, n, m);
    }
    assert Enabled(s, actions[i]) && states[i + 1] == Step(s, actions[i]);
    hide Tracked, MembershipStep, OwnershipStep, EnrollmentStep, InvalidationStep;
    match actions[i]
    case OnMembership(x) => MembershipTracks(s, x, n, m);
    case OnEnrollment(x) => EnrollmentTracks(s, x, n, m);
    case OnOwnership(x) => OwnershipTracks(s, x, n, m);
    case OnInvalidation(x) => InvalidationTracks(s, x, n, m);
  }

  lemma {:induction false} EndedStays(states: seq<State>, actions: seq<Action>, i: nat, j: nat,
                                      n: Incarnation, m: MachineId, r: Route)
    requires IsRun(states, actions) && i <= j < |states| && Ended(states[i], n, m, r)
    ensures Ended(states[j], n, m, r)
    decreases j
  {
    hide Enabled, Step, Init;
    if i < j {
      EndedStays(states, actions, i, j - 1, n, m, r);
      TransitionsEndOnRecord(states, actions, j - 1, n, m);
    }
  }

  /**
    However a prepared invalidation ends - finish message, undo, timeout, cancellation, lost
    message, ambiguous commit, or a commit landing after the observation - from then on its owner
    is fenced or the durable owner row no longer names the prepared route.
   */
  lemma EndedInvalidationIsSafe(states: seq<State>, actions: seq<Action>, i: nat, j: nat,
                                n: Incarnation, m: MachineId, r: Route)
    requires IsRun(states, actions) && i <= j < |states| && Ended(states[i], n, m, r)
    ensures n in states[j].nodes && m in states[j].tables.machines
    ensures states[j].nodes[n].lease.fenced || !Names(states[j].tables.machines[m], n, r)
  {
    EndedStays(states, actions, i, j, n, m, r);
    RunHolds(states, actions, j);
    Ownership.SlotFacts(states[j], n, m);
  }

  /**
    The plain read after an ambiguous commit tells its two outcomes apart: the rows before it are seen
    as aborted and the rows it wrote as committed.
   */
  lemma AmbiguousCommitIsClassified(states: seq<State>, actions: seq<Action>, i: nat, m: MachineId, r: Route,
                                    valid: bool)
    requires IsRun(states, actions) && i < |actions| && actions[i] == OnInvalidation(ACommit(m, r, Ambiguous))
    ensures var s := states[i + 1];
            && m in s.tables.machines && s.pending.Some? && m in s.pending.value.machines && (m, r) in s.coordinators
            && var c := s.coordinators[(m, r)];
            Observe(s.tables.machines[m], c.target, Exact(c.dest, r), valid) == SawAborted
            && Observe(s.pending.value.machines[m], c.target, Exact(c.dest, r), valid) == SawCommitted
  {
    var s := states[i];
    assert Enabled(s, actions[i]) && states[i + 1] == Step(s, actions[i]);
    var c, row := s.coordinators[(m, r)], s.tables.machines[m];
    hide IsRun, Observe, DoInvalidate;
    var before := OwnerCurrent(s.tables, row, s.nodes[c.source].config, s.now);
    RowsTellOutcome(row, c.target, Exact(c.dest, r), before, valid);
  }

  lemma RowsTellOutcome(row: MachineRow, target: Lifecycle, expected: Expectation, before: bool, valid: bool)
    requires DoInvalidate(row, target, expected, before).Some? && expected.Exact?
    ensures Observe(row, target, expected, valid) == SawAborted
    ensures Observe(DoInvalidate(row, target, expected, before).value, target, expected, valid) == SawCommitted
  {
    var b :| b in row.bindings && row.bindings[b].active && row.bindings[b].revision == row.revision;
    var next := DoInvalidate(row, target, expected, before).value;
    assert b in next.bindings && !next.bindings[b].active && next.bindings[b].revision == row.revision;
  }
}
