/** Time, leases, membership and configuration keep the cluster invariant. */
module ClusterMembership {
  import opened Common
  import opened Lease
  import opened Durable
  import opened Cluster
  import opened ClusterInvariant

  /** A passing check proves authority: this is where the clock bound is used. */
  lemma CheckMeansAuthority(n: Incarnation, node: Node, t: Tables, now: int)
    requires NodeOk(n, node, t, now) && CheckOk(node)
    ensures Authority(node, now)
  {
  }

  /** An authoritative node with a row has an unexpired lease. */
  lemma AuthorityMeansLeased(n: Incarnation, node: Node, t: Tables, now: int)
    requires NodeOk(n, node, t, now) && Authority(node, now) && n in t.nodes
    ensures Leased(t, n, now)
  {
  }

  lemma TickNode(n: Incarnation, node: Node, t: Tables, now: int, later: int, boot: nat)
    requires NodeOk(n, node, t, now) && now <= later && later - boot <= node.floor + node.margin
    ensures var next := node.(boot := boot, floor := Least(node.floor, later - boot));
            NodeOk(n, next, t, later) && Weaker(node, next, now, later)
  {
  }

  lemma TickSlots(s: State, now: int, boots: map<Incarnation, nat>, t: Tables)
    requires NodesOk(s, t) && SlotsOk(s, t) && TickOk(s, now, boots)
    ensures NodesOk(Tick(s, now, boots), t) && SlotsOk(Tick(s, now, boots), t)
  {
    hide SlotOk, NodeOk, Weaker;
    var s' := Tick(s, now, boots);
    forall n | n in s'.nodes ensures NodeOk(n, s'.nodes[n], t, now) && Weaker(s.nodes[n], s'.nodes[n], s.now, now) {
      TickNode(n, s.nodes[n], t, s.now, now, boots[n]);
    }
    forall n, m | n in s'.nodes && m in s'.nodes[n].slots
      ensures m in t.machines && SlotOk(n, s'.nodes[n], now, s'.nodes[n].slots[m], t.machines[m])
    {
      SlotWeakens(n, s.nodes[n], s.now, s'.nodes[n], now, s.nodes[n].slots[m], t.machines[m]);
    }
  }

  lemma TickTables(s: State, now: int, boots: map<Incarnation, nat>, t: Tables)
    requires Holding(s, t) && TickOk(s, now, boots)
    ensures Holding(Tick(s, now, boots), t)
  {
    var s' := Tick(s, now, boots);
    assert s'.nodes.Keys == s.nodes.Keys;
    assert TablesOk(t, now, s'.nodes.Keys) by {
      hide WellFormed;
      assert forall i :: Leased(t, i, now) ==> Leased(t, i, s.now);
    }
    hide SlotsOk, NodesOk, TablesOk, CoordinatorOk, Holds;
    TickSlots(s, now, boots, t);
    forall m, r | (m, r) in s'.coordinators ensures CoordinatorOk(s', m, r, t) {
      CoordinatorSame(s, s', m, r, t, t);
    }
  }

  lemma TickKeeps(s: State, now: int, boots: map<Incarnation, nat>)
    requires Inv(s) && TickOk(s, now, boots)
    ensures Inv(Tick(s, now, boots))
  {
    hide Holding;
    TickTables(s, now, boots, s.tables);
    if s.pending.Some? {
      TickTables(s, now, boots, s.pending.value);
    }
  }

  lemma BootTables(s: State, n: Incarnation, config: Config, ttl: nat, margin: nat, boot: nat, t: Tables)
    requires Holding(s, t) && BootOk(s, n, ttl, margin)
    ensures Holding(Boot(s, n, config, ttl, margin, boot), t)
  {
    hide SlotOk;
    var s' := Boot(s, n, config, ttl, margin, boot);
    assert n !in t.nodes;
    assert NodeOk(n, s'.nodes[n], t, s'.now);
    forall m, r | (m, r) in s'.coordinators ensures CoordinatorOk(s', m, r, t) {
      assert CoordinatorOk(s, m, r, t);
    }
  }

  lemma BootKeeps(s: State, n: Incarnation, config: Config, ttl: nat, margin: nat, boot: nat)
    requires Inv(s) && BootOk(s, n, ttl, margin)
    ensures Inv(Boot(s, n, config, ttl, margin, boot))
  {
    hide Holding;
    BootTables(s, n, config, ttl, margin, boot, s.tables);
    if s.pending.Some? {
      BootTables(s, n, config, ttl, margin, boot, s.pending.value);
    }
  }

  /** A change of one node's row leaves every other node as it was. */
  lemma OtherNodes(s: State, n: Incarnation, t: Tables, t': Tables)
    requires NodesOk(s, t)
    requires forall i :: i != n ==> (i in t'.nodes <==> i in t.nodes) && (i in t.nodes ==> t'.nodes[i] == t.nodes[i])
    ensures forall i :: i in s.nodes && i != n ==> NodeOk(i, s.nodes[i], t', s.now)
  {
    forall i | i in s.nodes && i != n ensures NodeOk(i, s.nodes[i], t', s.now) {
      assert NodeOk(i, s.nodes[i], t, s.now);
    }
  }

  /** Writing the row of one node, with that node's own next state. */
  lemma RowWritten(s: State, n: Incarnation, next: Node, row: NodeRow, outcome: Outcome)
    requires Inv(s) && s.pending == None && n in s.nodes
    requires next.slots == s.nodes[n].slots && (next.slots == map[] || Weaker(s.nodes[n], next, s.now, s.now))
    requires row.leaseUntil > s.now ==> row.epoch == s.tables.config.epoch && row.build == s.tables.config.build
    requires var t := s.tables.(nodes := s.tables.nodes[n := row]); NodeOk(n, next, t, s.now)
    requires outcome == Ambiguous ==> NodeOk(n, next, s.tables, s.now)
    ensures Inv(Submit(WithNode(s, n, next), s.tables.(nodes := s.tables.nodes[n := row]), outcome))
  {
    var t := s.tables.(nodes := s.tables.nodes[n := row]);
    assert TablesOk(t, s.now, s.nodes.Keys) by {
      hide WellFormed;
      assert forall i :: Leased(t, i, s.now) && i != n ==> Leased(s.tables, i, s.now);
    }
    OtherNodes(s, n, s.tables, t);
    hide SlotsOk, CoordinatorsOk, NodeOk, TablesOk, Weaker;
    NodeStep(s, n, next, s.tables, t);
    if outcome == Ambiguous {
      NodeStep(s, n, next, s.tables, s.tables);
    }
    SubmitStep(WithNode(s, n, next), t, outcome);
  }

  lemma RegisterKeeps(s: State, n: Incarnation, outcome: Outcome)
    requires Inv(s) && RegisterOk(s, n)
    ensures Inv(Register(s, n, outcome))
  {
    hide SlotsOk, CoordinatorsOk, TablesOk;
    var node := s.nodes[n];
    assert NodeOk(n, node, s.tables, s.now);
    var next := node.(renewal := if outcome == Committed then Granted(node.renewal.before) else Quiet);
    RowWritten(s, n, next, NodeRow(false, node.config.epoch, node.config.build, s.now + node.ttl), outcome);
  }

  lemma RenewStartKeeps(s: State, n: Incarnation)
    requires Inv(s) && RenewStartOk(s, n)
    ensures Inv(RenewStart(s, n))
  {
    hide SlotsOk, CoordinatorsOk, TablesOk;
    NodeFloor(s, n);
    assert NodeOk(n, s.nodes[n], s.tables, s.now);
    NodeChange(s, n, s.nodes[n].(renewal := Renewing(s.nodes[n].boot)));
  }

  lemma RenewKeeps(s: State, n: Incarnation, outcome: Outcome)
    requires Inv(s) && RenewOk(s, n)
    ensures Inv(Renew(s, n, outcome))
  {
    hide SlotsOk, CoordinatorsOk, TablesOk;
    var node := s.nodes[n];
    assert NodeOk(n, node, s.tables, s.now);
    var next := if outcome == Committed then node.(renewal := Granted(node.renewal.before))
                else node.(renewal := Quiet, lease := node.lease.(ready := false));
    RowWritten(s, n, next, s.tables.nodes[n].(leaseUntil := s.now + node.ttl), outcome);
  }

  lemma RenewFailsKeeps(s: State, n: Incarnation, rowGone: bool)
    requires Inv(s) && RenewFailsOk(s, n)
    ensures Inv(RenewFails(s, n, rowGone))
  {
    hide SlotsOk, CoordinatorsOk, TablesOk;
    assert NodeOk(n, s.nodes[n], s.tables, s.now);
    NodeChange(s, n, RenewFails(s, n, rowGone).nodes[n]);
  }

  /** Installing a deadline never restores lost authority. */
  lemma InstallKeeps(s: State, n: Incarnation, clockReads: bool)
    requires Inv(s) && InstallOk(s, n)
    ensures Inv(InstallLease(s, n, clockReads))
  {
    hide SlotsOk, CoordinatorsOk, TablesOk;
    assert NodeOk(n, s.nodes[n], s.tables, s.now);
    NodeChange(s, n, InstallLease(s, n, clockReads).nodes[n]);
  }

  lemma FenceKeeps(s: State, n: Incarnation)
    requires Inv(s) && n in s.nodes
    ensures Inv(Fenced(s, n))
  {
    hide SlotsOk, CoordinatorsOk, TablesOk;
    assert NodeOk(n, s.nodes[n], s.tables, s.now);
    NodeChange(s, n, s.nodes[n].(lease := Fence(s.nodes[n].lease)));
  }

  lemma BeginDrainKeeps(s: State, n: Incarnation)
    requires Inv(s) && n in s.nodes
    ensures Inv(WithNode(s, n, s.nodes[n].(lease := s.nodes[n].lease.(draining := true))))
  {
    hide SlotsOk, CoordinatorsOk, TablesOk;
    assert NodeOk(n, s.nodes[n], s.tables, s.now);
    NodeChange(s, n, s.nodes[n].(lease := s.nodes[n].lease.(draining := true)));
  }

  lemma DrainKeeps(s: State, n: Incarnation, outcome: Outcome)
    requires Inv(s) && DrainOk(s, n)
    ensures Inv(Drain(s, n, outcome))
  {
    hide SlotsOk, CoordinatorsOk, TablesOk;
    assert NodeOk(n, s.nodes[n], s.tables, s.now);
    RowWritten(s, n, s.nodes[n], s.tables.nodes[n].(draining := true), outcome);
    assert WithNode(s, n, s.nodes[n]) == s;
  }

  lemma LeaveKeeps(s: State, n: Incarnation, outcome: Outcome)
    requires Inv(s) && LeaveOk(s, n)
    ensures Inv(Leave(s, n, outcome))
  {
    var t := s.tables.(nodes := s.tables.nodes - {n});
    var next := s.nodes[n].(leaving := true);
    LeaveTables(s, n);
    OtherNodes(s, n, s.tables, t);
    OtherNodes(s, n, s.tables, s.tables);
    hide SlotsOk, CoordinatorsOk, TablesOk;
    assert NodeOk(n, s.nodes[n], s.tables, s.now);
    assert NodeOk(n, next, t, s.now) && NodeOk(n, next, s.tables, s.now) && Weaker(s.nodes[n], next, s.now, s.now);
    hide NodeOk, Weaker;
    NodeStep(s, n, next, s.tables, t);
    NodeStep(s, n, next, s.tables, s.tables);
    hide Holding;
    SubmitStep(WithNode(s, n, next), t, outcome);
  }

  lemma LeaveTables(s: State, n: Incarnation)
    requires Inv(s) && LeaveOk(s, n)
    ensures TablesOk(s.tables.(nodes := s.tables.nodes - {n}), s.now, s.nodes.Keys)
    ensures Ahead(s.tables, s.tables.(nodes := s.tables.nodes - {n}))
  {
    hide WellFormed, SlotsOk, NodesOk, CoordinatorsOk;
    var t := s.tables.(nodes := s.tables.nodes - {n});
    assert forall i :: Leased(t, i, s.now) ==> Leased(s.tables, i, s.now);
  }

  lemma ReconfigureKeeps(s: State, config: Config, outcome: Outcome)
    requires Inv(s) && ReconfigureOk(s, config)
    ensures Inv(Submit(s, s.tables.(config := config), outcome))
  {
    var t := s.tables.(config := config);
    hide SlotOk, WellFormed;
    assert forall i :: !Leased(t, i, s.now) by {
      assert forall i :: Leased(t, i, s.now) ==> Leased(s.tables, i, s.now);
    }
    forall n | n in s.nodes ensures NodeOk(n, s.nodes[n], t, s.now) {
      assert NodeOk(n, s.nodes[n], s.tables, s.now);
    }
    forall m, r | (m, r) in s.coordinators ensures CoordinatorOk(s, m, r, t) {
      assert CoordinatorOk(s, m, r, s.tables);
    }
    SubmitStep(s, t, outcome);
  }

  lemma LandKeeps(s: State, commit: bool)
    requires Inv(s) && s.pending.Some?
    ensures Inv(s.(tables := if commit then s.pending.value else s.tables, pending := None))
  {
    hide SlotOk, NodeOk, TablesOk;
    var s' := s.(tables := if commit then s.pending.value else s.tables, pending := None);
    SameHolding(s, s', s'.tables);
  }

  lemma NodeFloor(s: State, n: Incarnation)
    requires Inv(s) && n in s.nodes
    ensures s.nodes[n].floor <= s.now - s.nodes[n].boot
  {
    assert NodeOk(n, s.nodes[n], s.tables, s.now);
  }

  lemma MembershipKeeps(s: State, a: MembershipAction)
    requires Inv(s) && MembershipEnabled(s, a)
    ensures Inv(MembershipStep(s, a))
  {
    hide Inv;
    match a
    case ATick(now, boots) => TickKeeps(s, now, boots);
    case ABoot(n, config, ttl, margin, boot) => BootKeeps(s, n, config, ttl, margin, boot);
    case ARegister(n, outcome) => RegisterKeeps(s, n, outcome);
    case ARenewStart(n) => RenewStartKeeps(s, n);
    case ARenew(n, outcome) => RenewKeeps(s, n, outcome);
    case ARenewFails(n, rowGone) => RenewFailsKeeps(s, n, rowGone);
    case AInstallLease(n, clockReads) => InstallKeeps(s, n, clockReads);
    case AFence(n) => FenceKeeps(s, n);
    case ABeginDrain(n) => BeginDrainKeeps(s, n);
    case ADrain(n, outcome) => DrainKeeps(s, n, outcome);
    case ALeave(n, outcome) => LeaveKeeps(s, n, outcome);
    case AReconfigure(config, outcome) => ReconfigureKeeps(s, config, outcome);
    case ALand(commit) => LandKeeps(s, commit);
  }
}
