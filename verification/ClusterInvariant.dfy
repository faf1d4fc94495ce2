/** The inductive invariant of the cluster, stated over any tables the database may expose. */
module ClusterInvariant {
  import opened Common
  import opened Lease
  import opened Durable
  import opened Cluster
  import R = Registry

  /** The node might still pass a lease check: implied by a passing check, and never regained. */
  predicate Authority(node: Node, now: int)
  {
    && !node.lease.fenced
    && node.lease.deadline != 0
    && now < node.floor + node.lease.deadline + node.margin
  }

  predicate Down(node: Node)
  {
    node.lease.fenced || node.lease.draining
  }

  /** Some handle for `r` is open, installed or not. */
  ghost predicate Holds(slot: Slot, r: Route)
  {
    || (r.connection in slot.claims && slot.claims[r.connection] == Claimed(r))
    || (r in slot.live && slot.live[r].open)
  }

  predicate HasRoute(stage: ClaimStage)
  {
    stage.Unsure? || stage.Claimed? || stage.Withdrawn? || stage.WithdrawUnsure?
  }

  /** A claim whose commit was acknowledged. */
  predicate Certain(slot: Slot, c: Connection)
  {
    c in slot.claims && HasRoute(slot.claims[c]) && !slot.claims[c].Unsure?
  }

  /** The routes of claims that did commit are older than any claim still to come. */
  ghost predicate ClaimsOk(slot: Slot, row: MachineRow)
  {
    && slot.entry.pending == slot.claims.Keys
    && (forall c :: Certain(slot, c) ==>
          slot.claims[c].route.connection == c && slot.claims[c].route.epoch <= row.epoch)
    && (forall c, d :: Certain(slot, c) && Certain(slot, d) && c != d ==>
          slot.claims[c].route.epoch != slot.claims[d].route.epoch)
    && (forall c, r :: Certain(slot, c) && r in slot.live ==> slot.claims[c].route.epoch != r.epoch)
    && (forall r :: r in slot.live ==> r.epoch <= row.epoch)
  }

  /** The registry entry and the installed tunnel agree; at most one tunnel is on its way out. */
  ghost predicate EntryOk(slot: Slot, down: bool)
  {
    && (forall r, q :: r in slot.live && q in slot.live ==> r == q)
    && (forall r :: r in slot.live ==>
          slot.entry.tunnel == Some(r) || (slot.entry.exit.Some? && slot.entry.exit.value.route == r) || down)
    && (slot.entry.tunnel.Some? ==> slot.entry.tunnel.value in slot.live)
    && (slot.entry.exit.Some? ==> slot.entry.exit.value.route in slot.live)
    && (slot.entry.exit.Some? && slot.entry.exit.value.Transitioning? ==> slot.entry.tunnel == None)
    && (forall r :: r in slot.live ==>
          match slot.live[r].stage
          case Serving => slot.entry.exit != Some(R.Releasing(r))
          case Deferred => !slot.live[r].open && slot.entry.exit == Some(R.Transitioning(r))
          case _ => !slot.live[r].open && slot.entry.exit == Some(R.Releasing(r)))
  }

  ghost predicate TransitionOk(slot: Slot, row: MachineRow, n: Incarnation, fenced: bool)
  {
    && (!slot.transition.Idle? ==> slot.entry.exit == Some(R.Transitioning(slot.transition.route)))
    && (slot.transition.Cleaning? ==> slot.entry.pending <= slot.transition.waiting)
    && (slot.transition.Prepared? || slot.transition.Undoing? || slot.transition.Settled? ==>
          && slot.entry.pending == {}
          && slot.transition.route in slot.live
          && slot.live[slot.transition.route].stage == Deferred)
    && (slot.transition.Settled? ==> !Names(row, n, slot.transition.route))
    && (slot.transition.Idle? && slot.entry.exit.Some? && slot.entry.exit.value.Transitioning? ==> fenced)
    && (forall r :: r in slot.ended ==> fenced || (r.epoch <= row.epoch && !Names(row, n, r)))
  }

  /** Only the durable owner dispatches. */
  ghost predicate Exclusive(slot: Slot, row: MachineRow, n: Incarnation, authority: bool)
  {
    forall r :: Holds(slot, r) && authority ==> Names(row, n, r)
  }

  ghost predicate SlotOk(n: Incarnation, node: Node, now: int, slot: Slot, row: MachineRow)
  {
    && ClaimsOk(slot, row)
    && EntryOk(slot, Down(node))
    && TransitionOk(slot, row, n, node.lease.fenced)
    && Exclusive(slot, row, n, Authority(node, now))
  }

  ghost predicate NodeOk(n: Incarnation, node: Node, t: Tables, now: int)
  {
    && node.floor <= now - node.boot <= node.floor + node.margin
    && node.lease.deadline <= U64_MAX
    && (node.lease.deadline == 0 ==> node.slots == map[])
    && (node.renewal.Registering? ==> n !in t.nodes && node.lease.deadline == 0)
    && (node.renewal.Registering? || node.renewal.Renewing? ==> now >= node.floor + node.renewal.before)
    && (n in t.nodes ==>
          && t.nodes[n].epoch == node.config.epoch
          && t.nodes[n].build == node.config.build
          && t.nodes[n].leaseUntil <= now + node.ttl)
    && (node.renewal.Granted? && n in t.nodes ==> t.nodes[n].leaseUntil >= node.floor + node.renewal.before + node.ttl)
    && (node.renewal.Granted? ==> n in t.nodes || node.leaving)
    && (node.lease.deadline != 0 && !node.lease.fenced ==> n in t.nodes || node.leaving)
    && (node.lease.deadline != 0 && !node.lease.fenced && n in t.nodes ==>
          t.nodes[n].leaseUntil >= node.floor + node.lease.deadline + node.margin)
  }

  ghost predicate TablesOk(t: Tables, now: int, known: set<Incarnation>)
  {
    && t.nodes.Keys <= known
    && (forall i :: Leased(t, i, now) ==> t.nodes[i].epoch == t.config.epoch && t.nodes[i].build == t.config.build)
    && (forall m :: m in t.machines ==> WellFormed(t.machines[m]))
    && (forall m :: m in t.machines && t.machines[m].owner.Some? ==> t.machines[m].owner.value.incarnation in t.nodes)
  }

  ghost predicate CoordinatorOk(s: State, m: MachineId, r: Route, t: Tables)
    requires (m, r) in s.coordinators
  {
    var c := s.coordinators[(m, r)];
    && c.dest in s.nodes
    && m in t.machines
    && r.epoch <= t.machines[m].epoch
    && !Holds(SlotOf(s.nodes[c.dest], m), r)
    && (c.phase == Decided(true) ==> r.revision < t.machines[m].ownerRevision)
  }

  ghost predicate SlotsOk(s: State, t: Tables)
  {
    forall n, m :: n in s.nodes && m in s.nodes[n].slots ==>
      m in t.machines && SlotOk(n, s.nodes[n], s.now, s.nodes[n].slots[m], t.machines[m])
  }

  ghost predicate NodesOk(s: State, t: Tables)
  {
    forall n :: n in s.nodes ==> NodeOk(n, s.nodes[n], t, s.now)
  }

  ghost predicate CoordinatorsOk(s: State, t: Tables)
  {
    forall m, r :: (m, r) in s.coordinators ==> CoordinatorOk(s, m, r, t)
  }

  /** The invariant with respect to tables `t`. */
  ghost predicate Holding(s: State, t: Tables)
  {
    && TablesOk(t, s.now, s.nodes.Keys)
    && NodesOk(s, t)
    && SlotsOk(s, t)
    && CoordinatorsOk(s, t)
  }

  /** Pending tables are one transaction ahead of the committed ones. */
  ghost predicate Ahead(t: Tables, next: Tables)
  {
    forall m :: m in t.machines ==> m in next.machines && Forward(t.machines[m], next.machines[m])
  }

  ghost predicate Inv(s: State)
  {
    && Holding(s, s.tables)
    && (s.pending.Some? ==> Holding(s, s.pending.value) && Ahead(s.tables, s.pending.value))
  }

  lemma InitHolds(s: State)
    requires Init(s)
    ensures Inv(s)
  {
  }

  // ---- Generic preservation lemmas

  /** Authority, once lost, stays lost; fencing and draining are final. */
  ghost predicate Weaker(node: Node, next: Node, now: int, later: int)
  {
    && (Authority(next, later) ==> Authority(node, now))
    && (node.lease.fenced ==> next.lease.fenced)
    && (Down(node) ==> Down(next))
  }

  lemma SlotWeakens(n: Incarnation, node: Node, now: int, next: Node, later: int, slot: Slot, row: MachineRow)
    requires SlotOk(n, node, now, slot, row) && Weaker(node, next, now, later)
    ensures SlotOk(n, next, later, slot, row)
  {
  }

  /** Replacing one node by a weaker one with the same slots, and the node table with it. */
  lemma NodeStep(s: State, n: Incarnation, next: Node, t: Tables, t': Tables)
    requires Holding(s, t) && n in s.nodes
    requires next.slots == s.nodes[n].slots
    requires next.slots == map[] || Weaker(s.nodes[n], next, s.now, s.now)
    requires t'.machines == t.machines && TablesOk(t', s.now, s.nodes.Keys)
    requires forall i :: i in s.nodes && i != n ==> NodeOk(i, s.nodes[i], t', s.now)
    requires NodeOk(n, next, t', s.now)
    ensures Holding(WithNode(s, n, next), t')
  {
    hide SlotOk, NodeOk, CoordinatorOk, TablesOk;
    var s' := WithNode(s, n, next);
    assert s'.nodes.Keys == s.nodes.Keys;
    forall i, m | i in s'.nodes && m in s'.nodes[i].slots
      ensures m in t'.machines && SlotOk(i, s'.nodes[i], s'.now, s'.nodes[i].slots[m], t'.machines[m])
    {
      SlotWeakens(i, s.nodes[i], s.now, s'.nodes[i], s.now, s.nodes[i].slots[m], t.machines[m]);
    }
    forall m, r | (m, r) in s'.coordinators ensures CoordinatorOk(s', m, r, t') {
      CoordinatorSame(s, s', m, r, t, t');
    }
  }

  lemma CoordinatorSame(s: State, s': State, m: MachineId, r: Route, t: Tables, t': Tables)
    requires (m, r) in s.coordinators && CoordinatorOk(s, m, r, t) && t'.machines == t.machines
    requires (m, r) in s'.coordinators && s'.coordinators[(m, r)] == s.coordinators[(m, r)]
    requires s'.nodes.Keys == s.nodes.Keys
    requires var dest := s.coordinators[(m, r)].dest;
             dest in s.nodes ==>
               Holds(SlotOf(s'.nodes[dest], m), r) ==> Holds(SlotOf(s.nodes[dest], m), r)
    ensures CoordinatorOk(s', m, r, t')
  {
  }

  /** Replacing one slot. */
  lemma SlotStep(s: State, n: Incarnation, m: MachineId, slot: Slot, t: Tables)
    requires Holding(s, t) && n in s.nodes && m in t.machines && s.nodes[n].lease.deadline != 0
    requires SlotOk(n, s.nodes[n], s.now, slot, t.machines[m])
    requires forall r :: Holds(slot, r) ==> Holds(SlotOf(s.nodes[n], m), r) || (m, r) !in s.coordinators
    ensures Holding(WithSlot(s, n, m, slot), t)
  {
    hide SlotOk, NodeOk, CoordinatorOk, Holds;
    var s' := WithSlot(s, n, m, slot);
    assert s'.nodes.Keys == s.nodes.Keys;
    forall i, k | i in s'.nodes && k in s'.nodes[i].slots
      ensures k in t.machines && SlotOk(i, s'.nodes[i], s'.now, s'.nodes[i].slots[k], t.machines[k])
    {
      if i == n {
        var old_ := if k == m then slot else s.nodes[n].slots[k];
        SlotWeakens(i, s.nodes[i], s.now, s'.nodes[i], s.now, old_, t.machines[k]);
      }
    }
    forall k, r | (k, r) in s'.coordinators ensures CoordinatorOk(s', k, r, t) {
      CoordinatorSame(s, s', k, r, t, t);
    }
    forall i | i in s'.nodes ensures NodeOk(i, s'.nodes[i], t, s'.now) {
      if i == n {
        NodeIgnoresSlots(i, s.nodes[i], s'.nodes[i], t, s.now);
      }
    }
  }

  lemma NodeIgnoresSlots(n: Incarnation, node: Node, next: Node, t: Tables, now: int)
    requires NodeOk(n, node, t, now) && next == node.(slots := next.slots) && node.lease.deadline != 0
    ensures NodeOk(n, next, t, now)
  {
  }

  /** Replacing one Machine row, given what each slot and coordinator of that Machine needs. */
  lemma RowStep(s: State, m: MachineId, row: MachineRow, t: Tables)
    requires Holding(s, t) && m in t.machines
    requires WellFormed(row) && (row.owner.Some? ==> row.owner.value.incarnation in t.nodes)
    requires forall n :: n in s.nodes && m in s.nodes[n].slots ==>
               SlotOk(n, s.nodes[n], s.now, s.nodes[n].slots[m], row)
    requires Forward(t.machines[m], row)
    ensures Holding(s, WithMachine(t, m, row))
    ensures Ahead(t, WithMachine(t, m, row))
  {
    hide SlotOk, WellFormed, NodeOk, Holds;
    var t' := WithMachine(t, m, row);
    forall n | n in s.nodes ensures NodeOk(n, s.nodes[n], t', s.now) {
      NodeIgnoresMachines(n, s.nodes[n], t, t', s.now);
    }
    forall k, r | (k, r) in s.coordinators ensures CoordinatorOk(s, k, r, t') {
      assert CoordinatorOk(s, k, r, t);
    }
    assert forall i :: Leased(t', i, s.now) ==> Leased(t, i, s.now);
  }

  lemma NodeIgnoresMachines(n: Incarnation, node: Node, t: Tables, t': Tables, now: int)
    requires NodeOk(n, node, t, now) && t'.nodes == t.nodes
    ensures NodeOk(n, node, t', now)
  {
  }

  /** A transaction that satisfies the invariant keeps it, whether or not its answer arrives. */
  lemma SubmitStep(s: State, t: Tables, outcome: Outcome)
    requires s.pending == None && Holding(s, t)
    requires outcome == Ambiguous ==> Holding(s, s.tables) && Ahead(s.tables, t)
    ensures Inv(Submit(s, t, outcome))
  {
    var s' := Submit(s, t, outcome);
    SameHolding(s, s', t);
    if outcome == Ambiguous {
      SameHolding(s, s', s.tables);
    }
  }

  lemma SameHolding(s: State, s': State, t: Tables)
    requires Holding(s, t) && s'.nodes == s.nodes && s'.now == s.now && s'.coordinators == s.coordinators
    ensures Holding(s', t)
  {
    forall k, r | (k, r) in s'.coordinators ensures CoordinatorOk(s', k, r, t) {
      assert CoordinatorOk(s, k, r, t);
    }
  }

  /** A slot change that no transaction is part of. */
  lemma SlotChange(s: State, n: Incarnation, m: MachineId, slot: Slot)
    requires Inv(s) && n in s.nodes && m in s.tables.machines && s.nodes[n].lease.deadline != 0
    requires SlotOk(n, s.nodes[n], s.now, slot, s.tables.machines[m])
    requires s.pending.Some? ==>
               m in s.pending.value.machines && SlotOk(n, s.nodes[n], s.now, slot, s.pending.value.machines[m])
    requires forall r :: Holds(slot, r) ==> Holds(SlotOf(s.nodes[n], m), r) || (m, r) !in s.coordinators
    ensures Inv(WithSlot(s, n, m, slot))
  {
    hide SlotOk, Holding, Holds;
    SlotStep(s, n, m, slot, s.tables);
    if s.pending.Some? {
      SlotStep(s, n, m, slot, s.pending.value);
    }
  }

  /** A node change that no transaction is part of. */
  lemma NodeChange(s: State, n: Incarnation, next: Node)
    requires Inv(s) && n in s.nodes
    requires next.slots == s.nodes[n].slots
    requires next.slots == map[] || Weaker(s.nodes[n], next, s.now, s.now)
    requires NodeOk(n, next, s.tables, s.now)
    requires s.pending.Some? ==> NodeOk(n, next, s.pending.value, s.now)
    ensures Inv(WithNode(s, n, next))
  {
    hide SlotsOk, NodeOk, CoordinatorsOk, TablesOk;
    NodeStep(s, n, next, s.tables, s.tables);
    if s.pending.Some? {
      NodeStep(s, n, next, s.pending.value, s.pending.value);
    }
  }

  /** A coordinator change that no transaction is part of. */
  lemma CoordinatorStep(s: State, m: MachineId, r: Route, c: Coordinator, t: Tables)
    requires Holding(s, t)
    requires c.dest in s.nodes && m in t.machines && r.epoch <= t.machines[m].epoch
    requires !Holds(SlotOf(s.nodes[c.dest], m), r)
    requires c.phase == Decided(true) ==> r.revision < t.machines[m].ownerRevision
    ensures Holding(s.(coordinators := s.coordinators[(m, r) := c]), t)
  {
    hide SlotOk, NodeOk, TablesOk, Holds;
    var s' := s.(coordinators := s.coordinators[(m, r) := c]);
    forall k, q | (k, q) in s'.coordinators ensures CoordinatorOk(s', k, q, t) {
      if (k, q) != (m, r) {
        CoordinatorSame(s, s', k, q, t, t);
      }
    }
  }
}
