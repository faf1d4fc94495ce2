/** Claims, tunnels and releases keep the cluster invariant. */
module ClusterOwnership {
  import opened Common
  import opened Lease
  import opened Durable
  import opened Cluster
  import opened ClusterInvariant
  import R = Registry
  import Enrollment
  import Membership = ClusterMembership

  lemma SlotFacts(s: State, n: Incarnation, m: MachineId)
    requires Inv(s) && InSlot(s, n, m)
    ensures m in s.tables.machines && s.nodes[n].lease.deadline != 0
    ensures SlotOk(n, s.nodes[n], s.now, s.nodes[n].slots[m], s.tables.machines[m])
    ensures s.pending.Some? ==>
              && m in s.pending.value.machines
              && SlotOk(n, s.nodes[n], s.now, s.nodes[n].slots[m], s.pending.value.machines[m])
  {
    hide SlotOk, CoordinatorsOk, TablesOk;
    assert NodeOk(n, s.nodes[n], s.tables, s.now);
  }

  lemma CoordinatorEpoch(s: State, m: MachineId, r: Route)
    requires Inv(s) && (m, r) in s.coordinators && m in s.tables.machines
    ensures r.epoch <= s.tables.machines[m].epoch
  {
    hide SlotsOk, NodesOk, TablesOk, Holds;
    assert CoordinatorOk(s, m, r, s.tables);
  }

  // ---- What each critical section does to one slot

  lemma ReserveSlot(n: Incarnation, node: Node, now: int, slot: Slot, row: MachineRow, c: Connection)
    requires SlotOk(n, node, now, slot, row) && R.Reserve(slot.entry, c).Some?
    ensures SlotOk(n, node, now,
                   slot.(entry := R.Reserve(slot.entry, c).value, claims := slot.claims[c := Reserved]), row)
  {
  }

  /** A stage that keeps its route, loses it, or never was certain. */
  predicate Restages(slot: Slot, c: Connection, stage: ClaimStage)
  {
    && c in slot.claims
    && !stage.Claimed?
    && (HasRoute(stage) && !stage.Unsure? ==> Certain(slot, c) && stage.route == slot.claims[c].route)
  }

  lemma RestageClaims(slot: Slot, row: MachineRow, c: Connection, stage: ClaimStage)
    requires ClaimsOk(slot, row) && Restages(slot, c, stage)
    ensures ClaimsOk(slot.(claims := slot.claims[c := stage]), row)
  {
    var next := slot.(claims := slot.claims[c := stage]);
    assert next.claims.Keys == slot.claims.Keys;
    assert forall d :: Certain(next, d) ==> Certain(slot, d) && next.claims[d].route == slot.claims[d].route;
  }

  lemma RestageSlot(n: Incarnation, node: Node, now: int, slot: Slot, row: MachineRow, c: Connection, stage: ClaimStage)
    requires SlotOk(n, node, now, slot, row) && Restages(slot, c, stage)
    ensures SlotOk(n, node, now, slot.(claims := slot.claims[c := stage]), row)
  {
    RestageClaims(slot, row, c, stage);
    RestageExclusive(n, slot, row, Authority(node, now), c, stage);
    hide ClaimsOk, Exclusive, Restages;
  }

  lemma RestageExclusive(n: Incarnation, slot: Slot, row: MachineRow, authority: bool, c: Connection, stage: ClaimStage)
    requires Exclusive(slot, row, n, authority) && Restages(slot, c, stage)
    ensures Exclusive(slot.(claims := slot.claims[c := stage]), row, n, authority)
  {
    assert forall r :: Holds(slot.(claims := slot.claims[c := stage]), r) ==> Holds(slot, r);
  }

  lemma FinishPendingSlot(n: Incarnation, node: Node, now: int, slot: Slot, row: MachineRow, c: Connection)
    requires SlotOk(n, node, now, slot, row) && c in slot.claims
    ensures SlotOk(n, node, now, slot.(entry := R.FinishPending(slot.entry, c), claims := slot.claims - {c}), row)
  {
    var next := slot.(entry := R.FinishPending(slot.entry, c), claims := slot.claims - {c});
    assert next.claims.Keys == slot.claims.Keys - {c};
    assert forall r :: Holds(next, r) ==> Holds(slot, r);
  }

  /** A ready node without tunnel or exit record has no tunnel left over from before. */
  lemma InstallSlot(n: Incarnation, node: Node, now: int, slot: Slot, row: MachineRow, c: Connection)
    requires SlotOk(n, node, now, slot, row) && c in slot.claims && slot.claims[c].Claimed? && !Down(node)
    requires R.Install(slot.entry, c, slot.claims[c].route).Some?
    ensures var route := slot.claims[c].route;
            SlotOk(n, node, now,
                   slot.(entry := R.Install(slot.entry, c, route).value,
                         claims := slot.claims - {c},
                         live := slot.live[route := Tunnel(true, Serving)]), row)
  {
    var route := slot.claims[c].route;
    var next := slot.(entry := R.Install(slot.entry, c, route).value,
                      claims := slot.claims - {c},
                      live := slot.live[route := Tunnel(true, Serving)]);
    assert slot.live.Keys == {};
    assert next.live.Keys == {route};
    assert next.claims.Keys == slot.claims.Keys - {c};
    assert forall r :: Holds(next, r) ==> Holds(slot, r);
  }

  lemma CloseSlot(n: Incarnation, node: Node, now: int, slot: Slot, row: MachineRow, r: Route)
    requires SlotOk(n, node, now, slot, row) && r in slot.live
    ensures SlotOk(n, node, now, slot.(live := slot.live[r := slot.live[r].(open := false)]), row)
  {
    var next := slot.(live := slot.live[r := slot.live[r].(open := false)]);
    assert next.live.Keys == slot.live.Keys;
    assert forall q :: Holds(next, q) ==> Holds(slot, q);
  }

  lemma BeginReleaseSlot(n: Incarnation, node: Node, now: int, slot: Slot, row: MachineRow, r: Route)
    requires SlotOk(n, node, now, slot, row) && r in slot.live
    requires slot.live[r] == Tunnel(false, Serving) && R.ReleaseDecision(slot.entry, r).Some?
    ensures var stage := if R.ReleaseDecision(slot.entry, r).value == R.Defer then Deferred else Releasing;
            SlotOk(n, node, now,
                   slot.(entry := R.BeginRelease(slot.entry, r), live := slot.live[r := Tunnel(false, stage)]), row)
  {
    var stage := if R.ReleaseDecision(slot.entry, r).value == R.Defer then Deferred else Releasing;
    var next := slot.(entry := R.BeginRelease(slot.entry, r), live := slot.live[r := Tunnel(false, stage)]);
    assert next.live.Keys == slot.live.Keys;
    assert forall q :: Holds(next, q) ==> Holds(slot, q);
  }

  lemma ReleasedSlot(n: Incarnation, node: Node, now: int, slot: Slot, row: MachineRow, r: Route, stage: TunnelStage)
    requires SlotOk(n, node, now, slot, row) && r in slot.live
    requires slot.live[r].stage == Releasing || slot.live[r].stage == ReleaseUnsure
    requires stage == Released || stage == ReleaseUnsure
    ensures SlotOk(n, node, now, slot.(live := slot.live[r := Tunnel(false, stage)]), row)
  {
    var next := slot.(live := slot.live[r := Tunnel(false, stage)]);
    assert next.live.Keys == slot.live.Keys;
    assert forall q :: Holds(next, q) ==> Holds(slot, q);
  }

  lemma FinishReleaseSlot(n: Incarnation, node: Node, now: int, slot: Slot, row: MachineRow, r: Route)
    requires SlotOk(n, node, now, slot, row) && r in slot.live && slot.live[r].stage == Released
    ensures SlotOk(n, node, now, slot.(entry := R.FinishRelease(slot.entry, r), live := slot.live - {r}), row)
  {
    var next := slot.(entry := R.FinishRelease(slot.entry, r), live := slot.live - {r});
    assert next.live.Keys == {};
    assert forall q :: Holds(next, q) ==> Holds(slot, q);
  }

  lemma DrainedSlot(n: Incarnation, node: Node, now: int, slot: Slot, row: MachineRow)
    requires SlotOk(n, node, now, slot, row) && Down(node)
    ensures SlotOk(n, node, now, slot.(entry := R.Drained(slot.entry)), row)
  {
    var next := slot.(entry := R.Drained(slot.entry));
    assert forall q :: Holds(next, q) ==> Holds(slot, q);
  }

  // ---- What a new owner row means for every slot of the Machine

  /** A claim takes the Machine only from an owner that has lost its authority. */
  lemma ClaimedRowSlot(i: Incarnation, node: Node, now: int, slot: Slot, row: MachineRow, t: Tables,
                       n: Incarnation, c: Connection, revision: int)
    requires SlotOk(i, node, now, slot, row) && NodeOk(i, node, t, now)
    requires row.owner.Some? ==> row.owner.value.incarnation in t.nodes
    requires DoClaim(row, n, c, revision, OwnerLeased(t, row, now)).Some?
    ensures SlotOk(i, node, now, slot, DoClaim(row, n, c, revision, OwnerLeased(t, row, now)).value)
  {
    forall r | Holds(slot, r) && Authority(node, now) ensures false {
      Membership.AuthorityMeansLeased(i, node, t, now);
    }
  }

  /** Releasing a route nobody holds open takes nothing away from an open handle. */
  lemma ReleasedRowSlot(i: Incarnation, node: Node, now: int, slot: Slot, row: MachineRow, n: Incarnation, r: Route)
    requires SlotOk(i, node, now, slot, row)
    requires DoRelease(row, n, r.connection, r.epoch).Some?
    requires i == n ==> forall q :: Holds(slot, q) ==> q.epoch != r.epoch
    ensures SlotOk(i, node, now, slot, DoRelease(row, n, r.connection, r.epoch).value)
  {
  }

  lemma ClaimTables(s: State, n: Incarnation, m: MachineId, c: Connection, revision: int)
    requires Inv(s) && ClaimOk(s, n, m, c, revision)
    ensures var row := ClaimRow(s, n, m, c, revision).value;
            Holding(s, WithMachine(s.tables, m, row)) && Ahead(s.tables, WithMachine(s.tables, m, row))
  {
    var row := ClaimRow(s, n, m, c, revision).value;
    Enrollment.ClaimKeeps(s.tables.machines[m], n, c, revision, OwnerLeased(s.tables, s.tables.machines[m], s.now));
    hide SlotOk, NodeOk, WellFormed, CoordinatorsOk;
    forall i | i in s.nodes && m in s.nodes[i].slots
      ensures SlotOk(i, s.nodes[i], s.now, s.nodes[i].slots[m], row)
    {
      ClaimedRowSlot(i, s.nodes[i], s.now, s.nodes[i].slots[m], s.tables.machines[m], s.tables, n, c, revision);
    }
    RowStep(s, m, row, s.tables);
  }

  lemma ReleaseTables(s: State, n: Incarnation, m: MachineId, r: Route)
    requires Inv(s) && InSlot(s, n, m) && m in s.tables.machines && ReleaseRow(s, n, m, r).Some?
    requires forall q :: Holds(s.nodes[n].slots[m], q) ==> q.epoch != r.epoch
    ensures var row := ReleaseRow(s, n, m, r).value;
            Holding(s, WithMachine(s.tables, m, row)) && Ahead(s.tables, WithMachine(s.tables, m, row))
  {
    var row := ReleaseRow(s, n, m, r).value;
    Enrollment.ReleaseKeeps(s.tables.machines[m], n, r.connection, r.epoch);
    hide SlotOk, NodeOk, WellFormed, CoordinatorsOk, Holds;
    forall i | i in s.nodes && m in s.nodes[i].slots
      ensures SlotOk(i, s.nodes[i], s.now, s.nodes[i].slots[m], row)
    {
      ReleasedRowSlot(i, s.nodes[i], s.now, s.nodes[i].slots[m], s.tables.machines[m], n, r);
    }
    RowStep(s, m, row, s.tables);
  }

  // ---- The steps

  lemma ReserveKeeps(s: State, n: Incarnation, m: MachineId, c: Connection)
    requires Inv(s) && ReserveOk(s, n, m, c)
    ensures Inv(ReserveClaim(s, n, m, c))
  {
    var node := s.nodes[n];
    var slot := SlotOf(node, m);
    var next := slot.(entry := R.Reserve(slot.entry, c).value, claims := slot.claims[c := Reserved]);
    MaybeSlotFacts(s, n, m);
    hide SlotOk, Inv;
    ReserveSlot(n, node, s.now, slot, s.tables.machines[m], c);
    if s.pending.Some? {
      ReserveSlot(n, node, s.now, slot, s.pending.value.machines[m], c);
    }
    assert forall r :: Holds(next, r) ==> Holds(slot, r);
    SlotChange(s, n, m, next);
  }

  lemma EmptySlotOk(n: Incarnation, node: Node, now: int, row: MachineRow)
    ensures SlotOk(n, node, now, EMPTY_SLOT, row)
  {
  }

  lemma MaybeSlotFacts(s: State, n: Incarnation, m: MachineId)
    requires Inv(s) && n in s.nodes && m in s.tables.machines
    ensures SlotOk(n, s.nodes[n], s.now, SlotOf(s.nodes[n], m), s.tables.machines[m])
    ensures s.pending.Some? ==>
              && m in s.pending.value.machines
              && SlotOk(n, s.nodes[n], s.now, SlotOf(s.nodes[n], m), s.pending.value.machines[m])
  {
    hide SlotOk, NodeOk, CoordinatorsOk, TablesOk;
    if m !in s.nodes[n].slots {
      EmptySlotOk(n, s.nodes[n], s.now, s.tables.machines[m]);
      if s.pending.Some? {
        EmptySlotOk(n, s.nodes[n], s.now, s.pending.value.machines[m]);
      }
    }
  }

  lemma RestageKeeps(s: State, n: Incarnation, m: MachineId, c: Connection, stage: ClaimStage)
    requires Inv(s) && AtClaim(s, n, m, c) && Restages(s.nodes[n].slots[m], c, stage)
    ensures Inv(SetStage(s, n, m, c, stage))
  {
    var node := s.nodes[n];
    var slot := node.slots[m];
    var next := slot.(claims := slot.claims[c := stage]);
    assert forall r :: Holds(next, r) ==> Holds(slot, r);
    hide SlotOk, Inv, Holds;
    SlotFacts(s, n, m);
    RestageSlot(n, node, s.now, slot, s.tables.machines[m], c, stage);
    if s.pending.Some? {
      RestageSlot(n, node, s.now, slot, s.pending.value.machines[m], c, stage);
    }
    SlotChange(s, n, m, next);
  }

  lemma FinishPendingKeeps(s: State, n: Incarnation, m: MachineId, c: Connection)
    requires Inv(s) && FinishPendingOk(s, n, m, c)
    ensures Inv(FinishPending(s, n, m, c))
  {
    var node := s.nodes[n];
    var slot := node.slots[m];
    var next := slot.(entry := R.FinishPending(slot.entry, c), claims := slot.claims - {c});
    SlotFacts(s, n, m);
    hide SlotOk, Inv;
    FinishPendingSlot(n, node, s.now, slot, s.tables.machines[m], c);
    if s.pending.Some? {
      FinishPendingSlot(n, node, s.now, slot, s.pending.value.machines[m], c);
    }
    assert forall r :: Holds(next, r) ==> Holds(slot, r);
    SlotChange(s, n, m, next);
  }

  lemma InstallTunnelKeeps(s: State, n: Incarnation, m: MachineId, c: Connection)
    requires Inv(s) && AtClaimed(s, n, m, c)
    ensures Inv(InstallTunnel(s, n, m, c))
  {
    var node := s.nodes[n];
    var slot := node.slots[m];
    var route := slot.claims[c].route;
    if InstallAccepted(s, n, m, c) {
      var next := slot.(entry := R.Install(slot.entry, c, route).value,
                        claims := slot.claims - {c},
                        live := slot.live[route := Tunnel(true, Serving)]);
      SlotFacts(s, n, m);
      assert route.connection == c;
      hide SlotOk, Inv;
      InstallSlot(n, node, s.now, slot, s.tables.machines[m], c);
      if s.pending.Some? {
        InstallSlot(n, node, s.now, slot, s.pending.value.machines[m], c);
      }
      assert forall r :: Holds(next, r) ==> Holds(slot, r);
      SlotChange(s, n, m, next);
    } else {
      RestageKeeps(s, n, m, c, Withdrawn(route));
    }
  }

  lemma CloseKeeps(s: State, n: Incarnation, m: MachineId, r: Route)
    requires Inv(s) && AtTunnel(s, n, m, r)
    ensures Inv(CloseTunnel(s, n, m, r))
  {
    var node := s.nodes[n];
    var slot := node.slots[m];
    var next := slot.(live := slot.live[r := slot.live[r].(open := false)]);
    SlotFacts(s, n, m);
    hide SlotOk, Inv;
    CloseSlot(n, node, s.now, slot, s.tables.machines[m], r);
    if s.pending.Some? {
      CloseSlot(n, node, s.now, slot, s.pending.value.machines[m], r);
    }
    assert forall q :: Holds(next, q) ==> Holds(slot, q);
    SlotChange(s, n, m, next);
  }

  lemma BeginReleaseKeeps(s: State, n: Incarnation, m: MachineId, r: Route)
    requires Inv(s) && BeginReleaseOk(s, n, m, r)
    ensures Inv(BeginRelease(s, n, m, r))
  {
    var node := s.nodes[n];
    var slot := node.slots[m];
    var next := BeginRelease(s, n, m, r).nodes[n].slots[m];
    SlotFacts(s, n, m);
    hide SlotOk, Inv;
    BeginReleaseSlot(n, node, s.now, slot, s.tables.machines[m], r);
    if s.pending.Some? {
      BeginReleaseSlot(n, node, s.now, slot, s.pending.value.machines[m], r);
    }
    assert forall q :: Holds(next, q) ==> Holds(slot, q);
    SlotChange(s, n, m, next);
  }

  lemma ReleaseFailedKeeps(s: State, n: Incarnation, m: MachineId, r: Route)
    requires Inv(s) && ReleaseFailsOk(s, n, m, r)
    ensures Inv(SetTunnel(s, n, m, r, Tunnel(false, Released)))
  {
    var node := s.nodes[n];
    var slot := node.slots[m];
    var next := slot.(live := slot.live[r := Tunnel(false, Released)]);
    SlotFacts(s, n, m);
    hide SlotOk, Inv;
    ReleasedSlot(n, node, s.now, slot, s.tables.machines[m], r, Released);
    if s.pending.Some? {
      ReleasedSlot(n, node, s.now, slot, s.pending.value.machines[m], r, Released);
    }
    assert forall q :: Holds(next, q) ==> Holds(slot, q);
    SlotChange(s, n, m, next);
  }

  lemma FinishReleaseKeeps(s: State, n: Incarnation, m: MachineId, r: Route)
    requires Inv(s) && FinishReleaseOk(s, n, m, r)
    ensures Inv(FinishRelease(s, n, m, r))
  {
    var node := s.nodes[n];
    var slot := node.slots[m];
    var next := slot.(entry := R.FinishRelease(slot.entry, r), live := slot.live - {r});
    SlotFacts(s, n, m);
    hide SlotOk, Inv;
    FinishReleaseSlot(n, node, s.now, slot, s.tables.machines[m], r);
    if s.pending.Some? {
      FinishReleaseSlot(n, node, s.now, slot, s.pending.value.machines[m], r);
    }
    assert forall q :: Holds(next, q) ==> Holds(slot, q);
    SlotChange(s, n, m, next);
  }

  lemma DrainSlotKeeps(s: State, n: Incarnation, m: MachineId)
    requires Inv(s) && DrainSlotOk(s, n, m)
    ensures Inv(DrainSlot(s, n, m))
  {
    var node := s.nodes[n];
    var slot := node.slots[m];
    var next := slot.(entry := R.Drained(slot.entry));
    SlotFacts(s, n, m);
    hide SlotOk, Inv;
    DrainedSlot(n, node, s.now, slot, s.tables.machines[m]);
    if s.pending.Some? {
      DrainedSlot(n, node, s.now, slot, s.pending.value.machines[m]);
    }
    assert forall q :: Holds(next, q) ==> Holds(slot, q);
    SlotChange(s, n, m, next);
  }

  // ---- Transactions

  lemma ClaimedClaims(slot: Slot, row: MachineRow, next: MachineRow, c: Connection, stage: ClaimStage)
    requires ClaimsOk(slot, row) && next.epoch == row.epoch + 1
    requires c in slot.claims && HasRoute(stage) && stage.route.connection == c && stage.route.epoch == next.epoch
    ensures ClaimsOk(slot.(claims := slot.claims[c := stage]), next)
  {
    var after := slot.(claims := slot.claims[c := stage]);
    assert after.claims.Keys == slot.claims.Keys;
    assert forall d :: Certain(after, d) && d != c ==> Certain(slot, d);
  }

  /** The slot that a claim leaves behind, under the rows it wrote. */
  lemma ClaimedSlot(n: Incarnation, node: Node, now: int, slot: Slot, row: MachineRow, next: MachineRow, c: Connection,
                    stage: ClaimStage)
    requires SlotOk(n, node, now, slot, row) && SlotOk(n, node, now, slot, next)
    requires c in slot.claims && slot.claims[c] == Reserved && next.epoch == row.epoch + 1
    requires HasRoute(stage) && stage.route.connection == c && stage.route.epoch == next.epoch
    requires Names(next, n, stage.route)
    ensures SlotOk(n, node, now, slot.(claims := slot.claims[c := stage]), next)
  {
    ClaimedClaims(slot, row, next, c, stage);
    ClaimedExclusive(n, slot, next, Authority(node, now), c, stage);
    hide ClaimsOk, Exclusive;
  }

  lemma ClaimedExclusive(n: Incarnation, slot: Slot, next: MachineRow, authority: bool, c: Connection,
                         stage: ClaimStage)
    requires Exclusive(slot, next, n, authority) && HasRoute(stage) && stage.route.connection == c
    requires Names(next, n, stage.route)
    ensures Exclusive(slot.(claims := slot.claims[c := stage]), next, n, authority)
  {
    assert forall r :: Holds(slot.(claims := slot.claims[c := stage]), r) ==> Holds(slot, r) || r == stage.route;
  }

  lemma ClaimKeeps(s: State, n: Incarnation, m: MachineId, c: Connection, revision: int, outcome: Outcome)
    requires Inv(s) && ClaimOk(s, n, m, c, revision)
    ensures Inv(ClaimOwner(s, n, m, c, revision, outcome))
  {
    var node := s.nodes[n];
    var slot := node.slots[m];
    var old_ := s.tables.machines[m];
    var row := ClaimRow(s, n, m, c, revision).value;
    var t := WithMachine(s.tables, m, row);
    var route := Route(revision, row.epoch, c);
    var stage := if outcome == Committed then Claimed(route) else Unsure(route);
    var next := slot.(claims := slot.claims[c := stage]);
    SlotFacts(s, n, m);
    ClaimTables(s, n, m, c, revision);
    assert SlotOk(n, node, s.now, slot, row) by {
      hide SlotOk, NodeOk, WellFormed, CoordinatorsOk;
      assert m in t.machines && t.machines[m] == row;
    }
    if (m, route) in s.coordinators {
      CoordinatorEpoch(s, m, route);
    }
    hide SlotOk, Holding, WellFormed;
    ClaimedSlot(n, node, s.now, slot, old_, row, c, stage);
    assert forall r :: Holds(next, r) ==> Holds(slot, r) || r == route;
    hide Holds;
    SlotStep(s, n, m, next, t);
    if outcome == Ambiguous {
      RestageSlot(n, node, s.now, slot, old_, c, stage);
      SlotStep(s, n, m, next, s.tables);
    }
    SubmitStep(WithSlot(s, n, m, next), t, outcome);
  }

  /** Any release transaction, once its task's slot is known to be sound before and after it. */
  lemma ReleaseSubmitted(s: State, n: Incarnation, m: MachineId, r: Route, next: Slot, outcome: Outcome)
    requires Inv(s) && s.pending == None && InSlot(s, n, m)
    requires m in s.tables.machines && ReleaseRow(s, n, m, r).Some?
    requires forall q :: Holds(s.nodes[n].slots[m], q) ==> q.epoch != r.epoch
    requires forall q :: Holds(next, q) ==> Holds(s.nodes[n].slots[m], q)
    requires SlotOk(n, s.nodes[n], s.now, s.nodes[n].slots[m], ReleaseRow(s, n, m, r).value) ==>
               SlotOk(n, s.nodes[n], s.now, next, ReleaseRow(s, n, m, r).value)
    requires outcome == Ambiguous ==> SlotOk(n, s.nodes[n], s.now, next, s.tables.machines[m])
    ensures Inv(Submit(WithSlot(s, n, m, next), WithMachine(s.tables, m, ReleaseRow(s, n, m, r).value), outcome))
  {
    hide Holds, SlotOk;
    var row := ReleaseRow(s, n, m, r).value;
    var t := WithMachine(s.tables, m, row);
    SlotFacts(s, n, m);
    ReleaseTables(s, n, m, r);
    assert SlotOk(n, s.nodes[n], s.now, s.nodes[n].slots[m], row) by {
      hide NodeOk, WellFormed, CoordinatorsOk;
      assert m in t.machines && t.machines[m] == row;
    }
    hide Holding;
    SlotStep(s, n, m, next, t);
    if outcome == Ambiguous {
      SlotStep(s, n, m, next, s.tables);
    }
    SubmitStep(WithSlot(s, n, m, next), t, outcome);
  }

  lemma WithdrawKeeps(s: State, n: Incarnation, m: MachineId, c: Connection, outcome: Outcome)
    requires Inv(s) && WithdrawOk(s, n, m, c)
    ensures Inv(Withdraw(s, n, m, c, outcome))
  {
    var node := s.nodes[n];
    var slot := node.slots[m];
    var route := slot.claims[c].route;
    var row := ReleaseRow(s, n, m, route).value;
    var stage := if outcome == Committed then Refused else WithdrawUnsure(route);
    var next := slot.(claims := slot.claims[c := stage]);
    SlotFacts(s, n, m);
    assert forall q :: Holds(slot, q) ==> q.epoch != route.epoch;
    assert forall q :: Holds(next, q) ==> Holds(slot, q);
    hide SlotOk, Inv, Holds;
    if SlotOk(n, node, s.now, slot, row) {
      RestageSlot(n, node, s.now, slot, row, c, stage);
    }
    RestageSlot(n, node, s.now, slot, s.tables.machines[m], c, stage);
    ReleaseSubmitted(s, n, m, route, next, outcome);
  }

  lemma ReleaseKeeps(s: State, n: Incarnation, m: MachineId, r: Route, outcome: Outcome)
    requires Inv(s) && ReleaseOk(s, n, m, r)
    ensures Inv(ReleaseOwner(s, n, m, r, outcome))
  {
    var node := s.nodes[n];
    var slot := node.slots[m];
    var row := ReleaseRow(s, n, m, r).value;
    var stage := if outcome == Committed then Released else ReleaseUnsure;
    var next := slot.(live := slot.live[r := Tunnel(false, stage)]);
    SlotFacts(s, n, m);
    assert forall q :: Holds(slot, q) ==> q.epoch != r.epoch;
    assert forall q :: Holds(next, q) ==> Holds(slot, q);
    hide SlotOk, Inv, Holds;
    if SlotOk(n, node, s.now, slot, row) {
      ReleasedSlot(n, node, s.now, slot, row, r, stage);
    }
    if outcome == Ambiguous {
      ReleasedSlot(n, node, s.now, slot, s.tables.machines[m], r, stage);
    }
    ReleaseSubmitted(s, n, m, r, next, outcome);
  }

  lemma OwnershipKeeps(s: State, a: OwnershipAction)
    requires Inv(s) && OwnershipEnabled(s, a)
    ensures Inv(OwnershipStep(s, a))
  {
    hide Inv;
    match a
    case AReserve(n, m, c) => ReserveKeeps(s, n, m, c);
    case AClaim(n, m, c, revision, outcome) => ClaimKeeps(s, n, m, c, revision, outcome);
    case AClaimRefused(n, m, c) => RestageKeeps(s, n, m, c, Refused);
    case AClaimLearn(n, m, c) =>
      RestageKeeps(s, n, m, c, Refused);
      Membership.FenceKeeps(SetStage(s, n, m, c, Refused), n);
    case AFinishPending(n, m, c) => FinishPendingKeeps(s, n, m, c);
    case AInstallTunnel(n, m, c) => InstallTunnelKeeps(s, n, m, c);
    case AWithdraw(n, m, c, outcome) => WithdrawKeeps(s, n, m, c, outcome);
    case AWithdrawFails(n, m, c) =>
      RestageKeeps(s, n, m, c, Refused);
      Membership.FenceKeeps(SetStage(s, n, m, c, Refused), n);
    case AClose(n, m, r) => CloseKeeps(s, n, m, r);
    case ABeginRelease(n, m, r) => BeginReleaseKeeps(s, n, m, r);
    case ARelease(n, m, r, outcome) => ReleaseKeeps(s, n, m, r, outcome);
    case AReleaseFails(n, m, r) =>
      ReleaseFailedKeeps(s, n, m, r);
      Membership.FenceKeeps(SetTunnel(s, n, m, r, Tunnel(false, Released)), n);
    case AFinishRelease(n, m, r) => FinishReleaseKeeps(s, n, m, r);
    case ADrainSlot(n, m) => DrainSlotKeeps(s, n, m);
  }
}
