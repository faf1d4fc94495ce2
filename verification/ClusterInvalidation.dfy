/** Enrollment transactions and the two-party invalidation keep the cluster invariant. */
module ClusterInvalidation {
  import opened Common
  import opened Lease
  import opened Durable
  import opened Cluster
  import opened ClusterInvariant
  import R = Registry
  import Enrollment
  import Membership = ClusterMembership
  import Ownership = ClusterOwnership

  // ---- Rows

  predicate SameOwner(row: MachineRow, next: MachineRow)
  {
    row.owner == next.owner && row.epoch == next.epoch && row.ownerRevision == next.ownerRevision
  }

  lemma SameOwnerSlot(n: Incarnation, node: Node, now: int, slot: Slot, row: MachineRow, next: MachineRow)
    requires SlotOk(n, node, now, slot, row) && SameOwner(row, next)
    ensures SlotOk(n, node, now, slot, next)
  {
  }

  lemma EnrollmentLeavesOwner(row: MachineRow, op: Transaction)
    requires !op.Claim? && !op.Release? && !op.Invalidate? && Apply(row, op).Some?
    ensures SameOwner(row, Apply(row, op).value)
  {
  }

  lemma EnrollKeeps(s: State, n: Incarnation, m: MachineId, op: Transaction, outcome: Outcome)
    requires Inv(s) && EnrollOk(s, n, m, op)
    ensures Inv(Submit(s, WithMachine(s.tables, m, Apply(s.tables.machines[m], op).value), outcome))
  {
    var old_ := s.tables.machines[m];
    var row := Apply(old_, op).value;
    Enrollment.StepKeeps(old_, op);
    Enrollment.StepForward(old_, op);
    EnrollmentLeavesOwner(old_, op);
    hide SlotOk, NodeOk, WellFormed, CoordinatorsOk, Apply, Forward;
    forall i | i in s.nodes && m in s.nodes[i].slots
      ensures SlotOk(i, s.nodes[i], s.now, s.nodes[i].slots[m], row)
    {
      SameOwnerSlot(i, s.nodes[i], s.now, s.nodes[i].slots[m], old_, row);
    }
    RowStep(s, m, row, s.tables);
    hide Holding;
    SubmitStep(s, WithMachine(s.tables, m, row), outcome);
  }

  lemma CreatedTables(s: State, m: MachineId, row: MachineRow, t: Tables)
    requires Holding(s, t) && m !in t.machines && WellFormed(row) && row.owner == None
    ensures Holding(s, WithMachine(t, m, row)) && Ahead(t, WithMachine(t, m, row))
  {
    var t' := WithMachine(t, m, row);
    hide SlotOk, WellFormed, NodeOk, Holds;
    assert forall i :: Leased(t', i, s.now) ==> Leased(t, i, s.now);
    forall i | i in s.nodes ensures NodeOk(i, s.nodes[i], t', s.now) {
      NodeIgnoresMachines(i, s.nodes[i], t, t', s.now);
    }
    forall k, r | (k, r) in s.coordinators ensures CoordinatorOk(s, k, r, t') {
      assert CoordinatorOk(s, k, r, t);
    }
  }

  lemma CreateKeeps(s: State, n: Incarnation, m: MachineId, token: Uuid, outcome: Outcome)
    requires Inv(s) && CreateOk(s, n, m)
    ensures Inv(Submit(s, WithMachine(s.tables, m, Created(token, s.now)), outcome))
  {
    var row := Created(token, s.now);
    assert WellFormed(row) by {
      assert forall k :: IsIssued(row, k) <==> k == token;
    }
    hide Holding, WellFormed;
    CreatedTables(s, m, row, s.tables);
    SubmitStep(s, WithMachine(s.tables, m, row), outcome);
  }

  /** Under one configuration the two owner tests agree. */
  lemma OwnerTestsAgree(t: Tables, row: MachineRow, config: Config, now: int, known: set<Incarnation>)
    requires TablesOk(t, now, known) && t.config == config
    ensures OwnerCurrent(t, row, config, now) <==> OwnerLeased(t, row, now)
  {
  }

  lemma OrphanedRowSlot(i: Incarnation, node: Node, now: int, slot: Slot, row: MachineRow, t: Tables,
                        target: Lifecycle, revision: int)
    requires SlotOk(i, node, now, slot, row) && NodeOk(i, node, t, now)
    requires row.owner.Some? ==> row.owner.value.incarnation in t.nodes
    requires DoInvalidate(row, target, NoValidOwner(revision), OwnerLeased(t, row, now)).Some?
    ensures SlotOk(i, node, now, slot,
            DoInvalidate(row, target, NoValidOwner(revision), OwnerLeased(t, row, now)).value)
  {
    forall r | Holds(slot, r) && Authority(node, now) ensures false {
      Membership.AuthorityMeansLeased(i, node, t, now);
    }
  }

  lemma OrphanKeeps(s: State, a: Incarnation, m: MachineId, target: Lifecycle, revision: int, outcome: Outcome)
    requires Inv(s) && OrphanOk(s, a, m, target, revision)
    ensures Inv(Submit(s, WithMachine(s.tables, m, InvalidRow(s, a, m, target, NoValidOwner(revision)).value), outcome))
  {
    var old_ := s.tables.machines[m];
    var row := InvalidRow(s, a, m, target, NoValidOwner(revision)).value;
    OwnerTestsAgree(s.tables, old_, s.nodes[a].config, s.now, s.nodes.Keys);
    Enrollment.InvalidateKeeps(old_, target, NoValidOwner(revision), OwnerLeased(s.tables, old_, s.now));
    hide SlotOk, NodeOk, WellFormed, CoordinatorsOk;
    forall i | i in s.nodes && m in s.nodes[i].slots
      ensures SlotOk(i, s.nodes[i], s.now, s.nodes[i].slots[m], row)
    {
      OrphanedRowSlot(i, s.nodes[i], s.now, s.nodes[i].slots[m], old_, s.tables, target, revision);
    }
    RowStep(s, m, row, s.tables);
    hide Holding;
    SubmitStep(s, WithMachine(s.tables, m, row), outcome);
  }

  lemma EnrollmentKeeps(s: State, a: EnrollmentAction)
    requires Inv(s) && EnrollmentEnabled(s, a)
    ensures Inv(EnrollmentStep(s, a))
  {
    hide Inv;
    match a
    case AEnroll(n, m, op, outcome) => EnrollKeeps(s, n, m, op, outcome);
    case ACreate(n, m, token, outcome) => CreateKeeps(s, n, m, token, outcome);
    case AOrphan(n, m, target, revision, outcome) => OrphanKeeps(s, n, m, target, revision, outcome);
  }

  // ---- The owner's side

  lemma BeginTransitionSlot(n: Incarnation, node: Node, now: int, slot: Slot, row: MachineRow, r: Route)
    requires SlotOk(n, node, now, slot, row) && R.BeginTransition(slot.entry, r).Some?
    ensures SlotOk(n, node, now,
                   slot.(entry := R.BeginTransition(slot.entry, r).value,
                         transition := Cleaning(r, slot.entry.pending)), row)
  {
    var next := slot.(entry := R.BeginTransition(slot.entry, r).value, transition := Cleaning(r, slot.entry.pending));
    assert forall q :: Holds(next, q) ==> Holds(slot, q);
  }

  lemma BeginTransitionKeeps(s: State, n: Incarnation, m: MachineId, r: Route)
    requires Inv(s) && BeginTransitionOk(s, n, m, r)
    ensures Inv(BeginTransition(s, n, m, r))
  {
    var node := s.nodes[n];
    var slot := node.slots[m];
    var next := slot.(entry := R.BeginTransition(slot.entry, r).value, transition := Cleaning(r, slot.entry.pending));
    Ownership.SlotFacts(s, n, m);
    hide SlotOk, Inv;
    BeginTransitionSlot(n, node, s.now, slot, s.tables.machines[m], r);
    if s.pending.Some? {
      BeginTransitionSlot(n, node, s.now, slot, s.pending.value.machines[m], r);
    }
    assert forall q :: Holds(next, q) ==> Holds(slot, q);
    SlotChange(s, n, m, next);
  }

  lemma PreparedSlot(n: Incarnation, node: Node, now: int, slot: Slot, row: MachineRow)
    requires SlotOk(n, node, now, slot, row) && slot.transition.Cleaning? && slot.transition.route in slot.live
    requires slot.live[slot.transition.route].stage == Deferred || slot.live[slot.transition.route].stage == Released
    requires slot.transition.waiting !! slot.entry.pending
    ensures SlotOk(n, node, now, slot.(transition := Prepared(slot.transition.route)), row)
  {
    var next := slot.(transition := Prepared(slot.transition.route));
    assert slot.entry.pending == {};
    assert forall q :: Holds(next, q) ==> Holds(slot, q);
  }

  lemma TransitionReadyKeeps(s: State, n: Incarnation, m: MachineId)
    requires Inv(s) && TransitionReadyOk(s, n, m)
    ensures Inv(SetTransition(s, n, m, Prepared(s.nodes[n].slots[m].transition.route)))
  {
    var node := s.nodes[n];
    var slot := node.slots[m];
    var next := slot.(transition := Prepared(slot.transition.route));
    Ownership.SlotFacts(s, n, m);
    hide SlotOk, Inv;
    PreparedSlot(n, node, s.now, slot, s.tables.machines[m]);
    if s.pending.Some? {
      PreparedSlot(n, node, s.now, slot, s.pending.value.machines[m]);
    }
    assert forall q :: Holds(next, q) ==> Holds(slot, q);
    SlotChange(s, n, m, next);
  }

  lemma AbandonedSlot(n: Incarnation, node: Node, now: int, slot: Slot, row: MachineRow)
    requires SlotOk(n, node, now, slot, row) && !slot.transition.Idle? && node.lease.fenced
    ensures SlotOk(n, node, now, slot.(transition := Idle, ended := slot.ended + {slot.transition.route}), row)
  {
    var next := slot.(transition := Idle, ended := slot.ended + {slot.transition.route});
    assert forall q :: Holds(next, q) ==> Holds(slot, q);
  }

  lemma FenceCommutes(s: State, n: Incarnation, m: MachineId, slot: Slot)
    requires n in s.nodes
    ensures Fenced(WithSlot(s, n, m, slot), n) == WithSlot(Fenced(s, n), n, m, slot)
  {
    assert Fenced(WithSlot(s, n, m, slot), n).nodes == WithSlot(Fenced(s, n), n, m, slot).nodes;
  }

  /** A fenced node may drop its transition at any point. */
  lemma AbandonedKeeps(s: State, n: Incarnation, m: MachineId, next: Slot)
    requires Inv(s) && AbandonOk(s, n, m) && s.nodes[n].lease.fenced
    requires var slot := s.nodes[n].slots[m];
             next == slot.(transition := Idle, ended := slot.ended + {slot.transition.route})
    ensures Inv(WithSlot(s, n, m, next))
  {
    var slot := s.nodes[n].slots[m];
    assert forall q :: Holds(next, q) ==> Holds(slot, q);
    hide SlotOk, Inv, Holds;
    Ownership.SlotFacts(s, n, m);
    AbandonedSlot(n, s.nodes[n], s.now, slot, s.tables.machines[m]);
    if s.pending.Some? {
      AbandonedSlot(n, s.nodes[n], s.now, slot, s.pending.value.machines[m]);
    }
    SlotChange(s, n, m, next);
  }

  lemma AbandonKeeps(s: State, n: Incarnation, m: MachineId)
    requires Inv(s) && AbandonOk(s, n, m)
    ensures Inv(Abandon(s, n, m))
  {
    hide Inv;
    var slot := s.nodes[n].slots[m];
    var next := slot.(transition := Idle, ended := slot.ended + {slot.transition.route});
    Membership.FenceKeeps(s, n);
    AbandonedKeeps(Fenced(s, n), n, m, next);
    FenceCommutes(s, n, m, next);
  }

  lemma FinishedSlot(n: Incarnation, node: Node, now: int, slot: Slot, row: MachineRow)
    requires SlotOk(n, node, now, slot, row) && (slot.transition.Prepared? || slot.transition.Settled?)
    requires !Names(row, n, slot.transition.route)
    ensures var r := slot.transition.route;
            SlotOk(n, node, now,
                   slot.(entry := R.FinishTransition(slot.entry, r), live := slot.live - {r}, transition := Idle,
                         ended := slot.ended + {r}), row)
  {
    var r := slot.transition.route;
    var next := slot.(entry := R.FinishTransition(slot.entry, r), live := slot.live - {r}, transition := Idle,
                      ended := slot.ended + {r});
    assert next.live.Keys == {};
    assert forall q :: Holds(next, q) ==> Holds(slot, q);
  }

  lemma FinishKeeps(s: State, n: Incarnation, m: MachineId)
    requires Inv(s) && InSlot(s, n, m)
    requires var tr := s.nodes[n].slots[m].transition; tr.Prepared? || tr.Settled?
    requires m in s.tables.machines && !Names(s.tables.machines[m], n, s.nodes[n].slots[m].transition.route)
    requires s.pending.Some? ==>
               && m in s.pending.value.machines
               && !Names(s.pending.value.machines[m], n, s.nodes[n].slots[m].transition.route)
    ensures Inv(Finish(s, n, m))
  {
    var node := s.nodes[n];
    var slot := node.slots[m];
    var next := Finish(s, n, m).nodes[n].slots[m];
    Ownership.SlotFacts(s, n, m);
    hide SlotOk, Inv;
    FinishedSlot(n, node, s.now, slot, s.tables.machines[m]);
    if s.pending.Some? {
      FinishedSlot(n, node, s.now, slot, s.pending.value.machines[m]);
    }
    assert forall q :: Holds(next, q) ==> Holds(slot, q);
    SlotChange(s, n, m, next);
  }

  /** The finish message says committed only after the route's revision is gone for good. */
  lemma FinishCommittedKeeps(s: State, n: Incarnation, m: MachineId)
    requires Inv(s) && AtPrepared(s, n, m) && DecidedAs(s, n, m, true)
    ensures Inv(Finish(s, n, m))
  {
    var r := s.nodes[n].slots[m].transition.route;
    assert CoordinatorOk(s, m, r, s.tables) && (s.pending.Some? ==> CoordinatorOk(s, m, r, s.pending.value)) by {
      hide SlotsOk, NodesOk, TablesOk, Holds;
    }
    hide Inv;
    FinishKeeps(s, n, m);
  }

  lemma FinishUndoneKeeps(s: State, n: Incarnation, m: MachineId)
    requires Inv(s) && InSlot(s, n, m) && s.nodes[n].slots[m].transition.Settled?
    ensures Inv(Finish(s, n, m))
  {
    Ownership.SlotFacts(s, n, m);
    hide Inv;
    FinishKeeps(s, n, m);
  }

  lemma UndoneSlot(n: Incarnation, node: Node, now: int, slot: Slot, row: MachineRow, next: Transition)
    requires SlotOk(n, node, now, slot, row) && slot.transition.Prepared?
    requires next == Undoing(slot.transition.route)
             || (next == Settled(slot.transition.route) && !Names(row, n, slot.transition.route))
    ensures SlotOk(n, node, now, slot.(transition := next), row)
  {
    assert forall q :: Holds(slot.(transition := next), q) ==> Holds(slot, q);
  }

  lemma UndoKeeps(s: State, n: Incarnation, m: MachineId, outcome: Outcome)
    requires Inv(s) && UndoOk(s, n, m)
    ensures Inv(Undo(s, n, m, outcome))
  {
    var node := s.nodes[n];
    var slot := node.slots[m];
    var r := slot.transition.route;
    var row := ReleaseRow(s, n, m, r).value;
    var transition := if outcome == Committed then Settled(r) else Undoing(r);
    var next := slot.(transition := transition);
    Ownership.SlotFacts(s, n, m);
    assert forall q :: Holds(slot, q) ==> q.epoch != r.epoch;
    assert forall q :: Holds(next, q) ==> Holds(slot, q);
    hide SlotOk, Inv, Holds;
    if SlotOk(n, node, s.now, slot, row) {
      UndoneSlot(n, node, s.now, slot, row, transition);
    }
    if outcome == Ambiguous {
      UndoneSlot(n, node, s.now, slot, s.tables.machines[m], transition);
    }
    Ownership.ReleaseSubmitted(s, n, m, r, next, outcome);
  }

  // ---- The coordinator's side

  lemma CoordinatorFacts(s: State, m: MachineId, r: Route)
    requires Inv(s) && (m, r) in s.coordinators
    ensures CoordinatorOk(s, m, r, s.tables)
    ensures s.pending.Some? ==> CoordinatorOk(s, m, r, s.pending.value)
  {
    hide SlotsOk, NodesOk, TablesOk, Holds;
  }

  lemma CoordinateKeeps(s: State, a: Incarnation, n: Incarnation, m: MachineId, target: Lifecycle)
    requires Inv(s) && CoordinateOk(s, a, n, m)
    ensures Inv(Coordinate(s, a, n, m, target))
  {
    var r := s.nodes[n].slots[m].transition.route;
    Ownership.SlotFacts(s, n, m);
    assert !Holds(SlotOf(s.nodes[n], m), r);
    hide SlotOk, Holds, Holding;
    CoordinatorStep(s, m, r, Coordinator(a, n, target, Ready), s.tables);
    if s.pending.Some? {
      CoordinatorStep(s, m, r, Coordinator(a, n, target, Ready), s.pending.value);
    }
  }

  lemma PhaseKeeps(s: State, m: MachineId, r: Route, phase: Phase)
    requires Inv(s) && (m, r) in s.coordinators
    requires phase == Decided(true) ==> m in s.tables.machines && r.revision < s.tables.machines[m].ownerRevision
    ensures Inv(SetPhase(s, m, r, phase))
  {
    CoordinatorFacts(s, m, r);
    hide Holds, Holding;
    var c := s.coordinators[(m, r)].(phase := phase);
    CoordinatorStep(s, m, r, c, s.tables);
    if s.pending.Some? {
      CoordinatorStep(s, m, r, c, s.pending.value);
    }
  }

  /** The committed rows name no open handle: the prepared route was the only candidate. */
  lemma InvalidatedRowSlot(i: Incarnation, node: Node, now: int, slot: Slot, row: MachineRow,
                           target: Lifecycle, dest: Incarnation, r: Route, ownerValid: bool)
    requires SlotOk(i, node, now, slot, row) && DoInvalidate(row, target, Exact(dest, r), ownerValid).Some?
    requires i == dest ==> !Holds(slot, r)
    ensures SlotOk(i, node, now, slot, DoInvalidate(row, target, Exact(dest, r), ownerValid).value)
  {
    assert forall q :: Holds(slot, q) && Names(row, i, q) ==> q == r;
  }

  lemma CommitKeeps(s: State, m: MachineId, r: Route, outcome: Outcome)
    requires Inv(s) && CommitOk(s, m, r)
    ensures Inv(CommitInvalidation(s, m, r, outcome))
  {
    var c := s.coordinators[(m, r)];
    var old_ := s.tables.machines[m];
    var valid := OwnerCurrent(s.tables, old_, s.nodes[c.source].config, s.now);
    var row := InvalidRow(s, c.source, m, c.target, Exact(c.dest, r)).value;
    var t := WithMachine(s.tables, m, row);
    CoordinatorFacts(s, m, r);
    Enrollment.InvalidateKeeps(old_, c.target, Exact(c.dest, r), valid);
    hide SlotOk, NodeOk, WellFormed, CoordinatorsOk, Holds;
    forall i | i in s.nodes && m in s.nodes[i].slots
      ensures SlotOk(i, s.nodes[i], s.now, s.nodes[i].slots[m], row)
    {
      InvalidatedRowSlot(i, s.nodes[i], s.now, s.nodes[i].slots[m], old_, c.target, c.dest, r, valid);
    }
    RowStep(s, m, row, s.tables);
    hide Holding;
    var next := c.(phase := if outcome == Committed then Decided(true) else CommitUnsure);
    CoordinatorStep(s, m, r, next, t);
    if outcome == Ambiguous {
      CoordinatorStep(s, m, r, next, s.tables);
    }
    SubmitStep(s.(coordinators := s.coordinators[(m, r) := next]), t, outcome);
  }

  lemma InvalidationKeeps(s: State, a: InvalidationAction)
    requires Inv(s) && InvalidationEnabled(s, a)
    ensures Inv(InvalidationStep(s, a))
  {
    hide Inv;
    match a
    case ABeginTransition(n, m, r) => BeginTransitionKeeps(s, n, m, r);
    case ATransitionReady(n, m) => TransitionReadyKeeps(s, n, m);
    case AAbandon(n, m) => AbandonKeeps(s, n, m);
    case ACoordinate(a, n, m, target) => CoordinateKeeps(s, a, n, m, target);
    case ACommit(m, r, outcome) => CommitKeeps(s, m, r, outcome);
    case ACommitRefused(m, r) => PhaseKeeps(s, m, r, Decided(false));
    case AObserve(m, r) => PhaseKeeps(s, m, r, ObserveCommit(s, m, r).coordinators[(m, r)].phase);
    case ALose(m, r) => PhaseKeeps(s, m, r, Lost);
    case AFinishCommitted(n, m) => FinishCommittedKeeps(s, n, m);
    case AUndo(n, m, outcome) => UndoKeeps(s, n, m, outcome);
    case AFinishUndone(n, m) => FinishUndoneKeeps(s, n, m);
  }
}
