/** An undecided claim blocks every transition of its Machine until its node is fenced. */
module ClusterBlocked {
  import opened Common
  import opened Lease
  import opened Durable
  import opened Cluster
  import opened ClusterInvariant
  import R = Registry
  import Theorems = ClusterTheorems
  import Ownership = ClusterOwnership
  import opened ClusterProgress
  import Solo = ClusterSingle

  /** Releasing `q` finds no row of its own, and never will. */
  predicate Unnamed(t: Tables, n: Incarnation, m: MachineId, q: Route)
  {
    m in t.machines && q.epoch <= t.machines[m].epoch && DoRelease(t.machines[m], n, q.connection, q.epoch).None?
  }

  ghost predicate RowsUnnamed(s: State, n: Incarnation, m: MachineId, q: Route)
  {
    Unnamed(s.tables, n, m, q) && (s.pending.Some? ==> Unnamed(s.pending.value, n, m, q))
  }

  /** The node is fenced, or the claim stays at `stage` and no transition is past waiting for it. */
  predicate Waits(s: State, n: Incarnation, m: MachineId, c: Connection, stage: ClaimStage)
  {
    && InSlot(s, n, m) && Doomed(stage)
    && var slot := s.nodes[n].slots[m];
    s.nodes[n].lease.fenced
    || (&& c in slot.claims && slot.claims[c] == stage && c in slot.entry.pending
        && (slot.transition.Idle? || (slot.transition.Cleaning? && c in slot.transition.waiting)))
  }

  ghost predicate Blocked(s: State, n: Incarnation, m: MachineId, c: Connection, stage: ClaimStage)
  {
    && Waits(s, n, m, c, stage)
    && (s.nodes[n].lease.fenced || !stage.Withdrawn? || RowsUnnamed(s, n, m, stage.route))
  }

  // ---- The slot ----

  lemma MembershipWaits(s: State, a: MembershipAction, n: Incarnation, m: MachineId, c: Connection,
                       stage: ClaimStage)
    requires MembershipEnabled(s, a) && Waits(s, n, m, c, stage)
    ensures Waits(MembershipStep(s, a), n, m, c, stage)
  {
  }

  lemma EnrollmentWaits(s: State, a: EnrollmentAction, n: Incarnation, m: MachineId, c: Connection,
                       stage: ClaimStage)
    requires EnrollmentEnabled(s, a) && Waits(s, n, m, c, stage)
    ensures Waits(EnrollmentStep(s, a), n, m, c, stage)
  {
  }

  predicate Withdrawing(a: OwnershipAction)
  {
    a.AInstallTunnel? || a.AWithdraw? || a.AWithdrawFails?
  }

  lemma ClaimingWaits(s: State, a: OwnershipAction, n: Incarnation, m: MachineId, c: Connection, stage: ClaimStage)
    requires OwnershipEnabled(s, a) && Theorems.ClaimSide(a) && !Withdrawing(a) && Waits(s, n, m, c, stage)
    ensures Waits(OwnershipStep(s, a), n, m, c, stage)
  {
    hide ValidServing, ValidReleasing, DoClaim, DoRelease, IsReady;
  }

  /** A withdrawal commits only for the recorded owner, so an undecided claim only ends in a fence. */
  lemma WithdrawingWaits(s: State, a: OwnershipAction, n: Incarnation, m: MachineId, c: Connection, stage: ClaimStage)
    requires OwnershipEnabled(s, a) && Withdrawing(a) && Blocked(s, n, m, c, stage)
    ensures Waits(OwnershipStep(s, a), n, m, c, stage)
  {
    hide ValidServing, ValidReleasing, DoClaim, IsReady;
  }

  lemma OwnershipWaits(s: State, a: OwnershipAction, n: Incarnation, m: MachineId, c: Connection, stage: ClaimStage)
    requires OwnershipEnabled(s, a) && Blocked(s, n, m, c, stage)
    ensures Waits(OwnershipStep(s, a), n, m, c, stage)
  {
    hide OwnershipEnabled, OwnershipStep, Waits, RowsUnnamed;
    if Withdrawing(a) {
      WithdrawingWaits(s, a, n, m, c, stage);
    } else if Theorems.ClaimSide(a) {
      ClaimingWaits(s, a, n, m, c, stage);
    } else {
      ReleaseSideWaits(s, a, n, m, c, stage);
    }
  }

  lemma ReleaseSideWaits(s: State, a: OwnershipAction, n: Incarnation, m: MachineId, c: Connection,
                       stage: ClaimStage)
    requires OwnershipEnabled(s, a) && !Theorems.ClaimSide(a) && Waits(s, n, m, c, stage)
    ensures Waits(OwnershipStep(s, a), n, m, c, stage)
  {
    hide ValidServing, ValidReleasing, DoRelease;
  }

  lemma InvalidationWaits(s: State, a: InvalidationAction, n: Incarnation, m: MachineId, c: Connection,
                       stage: ClaimStage)
    requires InvalidationEnabled(s, a) && Waits(s, n, m, c, stage)
    ensures Waits(InvalidationStep(s, a), n, m, c, stage)
  {
    hide ValidServing, ValidReleasing, DoInvalidate, DoRelease, Observe;
  }

  // ---- The rows ----

  lemma MembershipUnnamed(s: State, a: MembershipAction, n: Incarnation, m: MachineId, q: Route)
    requires MembershipEnabled(s, a) && RowsUnnamed(s, n, m, q)
    ensures RowsUnnamed(MembershipStep(s, a), n, m, q)
  {
  }

  lemma EnrollmentUnnamed(s: State, a: EnrollmentAction, n: Incarnation, m: MachineId, q: Route)
    requires EnrollmentEnabled(s, a) && RowsUnnamed(s, n, m, q)
    ensures RowsUnnamed(EnrollmentStep(s, a), n, m, q)
  {
  }

  /** A claim takes an epoch of its own. */
  lemma OwnershipUnnamed(s: State, a: OwnershipAction, n: Incarnation, m: MachineId, q: Route)
    requires OwnershipEnabled(s, a) && RowsUnnamed(s, n, m, q)
    ensures RowsUnnamed(OwnershipStep(s, a), n, m, q)
  {
    hide ValidServing, ValidReleasing, IsReady;
  }

  lemma InvalidationUnnamed(s: State, a: InvalidationAction, n: Incarnation, m: MachineId, q: Route)
    requires InvalidationEnabled(s, a) && RowsUnnamed(s, n, m, q)
    ensures RowsUnnamed(InvalidationStep(s, a), n, m, q)
  {
    hide ValidServing, ValidReleasing, Observe;
  }

  // ---- Runs ----

  lemma StepWaits(s: State, a: Action, n: Incarnation, m: MachineId, c: Connection, stage: ClaimStage)
    requires Enabled(s, a) && Blocked(s, n, m, c, stage)
    ensures Waits(Step(s, a), n, m, c, stage)
  {
    hide Waits, MembershipStep, EnrollmentStep, OwnershipStep, InvalidationStep, RowsUnnamed;
    hide MembershipEnabled, EnrollmentEnabled, OwnershipEnabled, InvalidationEnabled;
    match a
    case OnMembership(x) => MembershipWaits(s, x, n, m, c, stage);
    case OnEnrollment(x) => EnrollmentWaits(s, x, n, m, c, stage);
    case OnOwnership(x) => OwnershipWaits(s, x, n, m, c, stage);
    case OnInvalidation(x) => InvalidationWaits(s, x, n, m, c, stage);
  }

  lemma StepUnnamed(s: State, a: Action, n: Incarnation, m: MachineId, q: Route)
    requires Enabled(s, a) && RowsUnnamed(s, n, m, q)
    ensures RowsUnnamed(Step(s, a), n, m, q)
  {
    hide MembershipStep, EnrollmentStep, OwnershipStep, InvalidationStep, RowsUnnamed;
    hide MembershipEnabled, EnrollmentEnabled, OwnershipEnabled, InvalidationEnabled;
    match a
    case OnMembership(x) => MembershipUnnamed(s, x, n, m, q);
    case OnEnrollment(x) => EnrollmentUnnamed(s, x, n, m, q);
    case OnOwnership(x) => OwnershipUnnamed(s, x, n, m, q);
    case OnInvalidation(x) => InvalidationUnnamed(s, x, n, m, q);
  }

  lemma MembershipFenceStays(s: State, a: MembershipAction, n: Incarnation)
    requires MembershipEnabled(s, a) && n in s.nodes && s.nodes[n].lease.fenced
    ensures n in MembershipStep(s, a).nodes && MembershipStep(s, a).nodes[n].lease.fenced
  {
  }

  lemma FenceStays(s: State, a: Action, n: Incarnation)
    requires Enabled(s, a) && n in s.nodes && s.nodes[n].lease.fenced
    ensures n in Step(s, a).nodes && Step(s, a).nodes[n].lease.fenced
  {
    hide MembershipStep, EnrollmentStep, OwnershipStep, InvalidationStep;
    hide MembershipEnabled, EnrollmentEnabled, OwnershipEnabled, InvalidationEnabled;
    match a {
      case OnMembership(x) => MembershipFenceStays(s, x, n);
      case OnEnrollment(x) => Solo.EnrollmentIsSteady(s, x);
      case OnOwnership(x) => Solo.OwnershipIsSteady(s, x);
      case OnInvalidation(x) => Solo.InvalidationIsSteady(s, x);
    }
    assert !a.OnMembership? ==> n in Step(s, a).nodes.Keys;
  }

  lemma StepIsBlocked(s: State, a: Action, n: Incarnation, m: MachineId, c: Connection, stage: ClaimStage)
    requires Enabled(s, a) && Blocked(s, n, m, c, stage)
    ensures Blocked(Step(s, a), n, m, c, stage)
  {
    StepWaits(s, a, n, m, c, stage);
    if s.nodes[n].lease.fenced {
      FenceStays(s, a, n);
    } else if stage.Withdrawn? {
      StepUnnamed(s, a, n, m, stage.route);
    }
    hide Enabled, Step, RowsUnnamed;
  }

  lemma OwningIsBlocked(states: seq<State>, actions: seq<Action>, i: nat, n: Incarnation, m: MachineId, r: Route,
                        c: Connection)
    requires IsRun(states, actions) && i < |states| && Owning(states[i], n, m, r)
    requires AtClaim(states[i], n, m, c) && Doomed(states[i].nodes[n].slots[m].claims[c])
    ensures Blocked(states[i], n, m, c, states[i].nodes[n].slots[m].claims[c])
  {
    var s := states[i];
    Theorems.RunHolds(states, actions, i);
    Ownership.SlotFacts(s, n, m);
  }

  /**
    From a state in which a node owns a Machine while a claim of its own is undecided, no run gets a
    transition of that Machine past waiting for its claims, unless the node is fenced.
   */
  lemma {:induction false} UndecidedClaimBlocks(states: seq<State>, actions: seq<Action>, i: nat, j: nat,
                                                n: Incarnation, m: MachineId, r: Route, c: Connection)
    requires IsRun(states, actions) && i <= j < |states| && Owning(states[i], n, m, r)
    requires AtClaim(states[i], n, m, c) && Doomed(states[i].nodes[n].slots[m].claims[c])
    ensures Blocked(states[j], n, m, c, states[i].nodes[n].slots[m].claims[c])
    ensures InSlot(states[j], n, m)
    ensures var slot := states[j].nodes[n].slots[m];
            states[j].nodes[n].lease.fenced || slot.transition.Idle? || slot.transition.Cleaning?
    decreases j
  {
    hide Enabled, Step, RowsUnnamed, Owning, Init;
    if i < j {
      UndecidedClaimBlocks(states, actions, i, j - 1, n, m, r, c);
      StepIsBlocked(states[j - 1], actions[j - 1], n, m, c, states[i].nodes[n].slots[m].claims[c]);
    } else {
      OwningIsBlocked(states, actions, i, n, m, r, c);
    }
  }
}
