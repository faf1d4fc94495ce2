/**
  N server incarnations over one linearizable database. A transaction either commits in one
  step or becomes `pending`: its client has lost the answer, the deployment lock stays taken,
  and the commit lands or is rolled back later. Reads never see pending tables.
 */
module Cluster {
  import opened Common
  import opened Lease
  import opened Durable
  import R = Registry

  datatype Config = Config(epoch: nat, build: nat, singleNode: bool, proof: nat)

  datatype NodeRow = NodeRow(draining: bool, epoch: nat, build: nat, leaseUntil: int)

  datatype Tables = Tables(
    config: Config,
    nodes: map<Incarnation, NodeRow>,
    machines: map<MachineId, MachineRow>)

  /** Where one tunnel task stands before its handle is installed. */
  datatype ClaimStage =
    | Reserved
    | Unsure(route: Route)
    | Claimed(route: Route)
    | Withdrawn(route: Route)
    | WithdrawUnsure(route: Route)
    | Refused

  /** Where an installed tunnel stands on its way out. */
  datatype TunnelStage = Serving | Deferred | Releasing | ReleaseUnsure | Released

  datatype Tunnel = Tunnel(open: bool, stage: TunnelStage)

  /** The one Machine transition a node may hold for a Machine. */
  datatype Transition =
    | Idle
    | Cleaning(route: Route, waiting: set<Connection>)
    | Prepared(route: Route)
    | Undoing(route: Route)
    | Settled(route: Route)

  /** One node's state about one Machine; `ended` records the transitions that have finished. */
  datatype Slot = Slot(
    entry: R.Entry,
    claims: map<Connection, ClaimStage>,
    live: map<Route, Tunnel>,
    transition: Transition,
    ended: set<Route>)

  const EMPTY_SLOT := Slot(R.NO_ENTRY, map[], map[], Idle, {})

  /** A lease request carries the boot time read before it was sent. */
  datatype Renewal = Quiet | Registering(before: nat) | Renewing(before: nat) | Granted(before: nat)

  /** `floor` is the least value that database time minus boot time has had since this node started. */
  datatype Node = Node(
    lease: LeaseState,
    config: Config,
    ttl: nat,
    margin: nat,
    boot: nat,
    floor: int,
    renewal: Renewal,
    leaving: bool,
    slots: map<MachineId, Slot>)

  datatype Phase = Ready | CommitUnsure | Decided(committed: bool) | Lost

  /** The API operation that drives one prepared transition, on the owner itself or across a socket. */
  datatype Coordinator = Coordinator(source: Incarnation, dest: Incarnation, target: Lifecycle, phase: Phase)

  datatype State = State(
    now: int,
    tables: Tables,
    pending: Option<Tables>,
    nodes: map<Incarnation, Node>,
    coordinators: map<(MachineId, Route), Coordinator>)

  datatype Outcome = Committed | Ambiguous

  function SlotOf(node: Node, m: MachineId): Slot
  {
    if m in node.slots then node.slots[m] else EMPTY_SLOT
  }

  function WithNode(s: State, n: Incarnation, node: Node): State
  {
    s.(nodes := s.nodes[n := node])
  }

  function WithSlot(s: State, n: Incarnation, m: MachineId, slot: Slot): State
    requires n in s.nodes
  {
    WithNode(s, n, s.nodes[n].(slots := s.nodes[n].slots[m := slot]))
  }

  function WithMachine(t: Tables, m: MachineId, row: MachineRow): Tables
  {
    t.(machines := t.machines[m := row])
  }

  function Submit(s: State, t: Tables, outcome: Outcome): State
  {
    match outcome
    case Committed => s.(tables := t)
    case Ambiguous => s.(pending := Some(t))
  }

  function Fenced(s: State, n: Incarnation): State
    requires n in s.nodes
  {
    WithNode(s, n, s.nodes[n].(lease := Fence(s.nodes[n].lease)))
  }

  predicate CheckOk(node: Node)
  {
    CheckPasses(node.lease, node.boot)
  }

  predicate Leased(t: Tables, i: Incarnation, now: int)
  {
    i in t.nodes && t.nodes[i].leaseUntil > now
  }

  /** The owner test of a claim. */
  predicate OwnerLeased(t: Tables, row: MachineRow, now: int)
  {
    row.owner.Some? && Leased(t, row.owner.value.incarnation, now)
  }

  /** The stricter owner test of an invalidation, made under configuration `config`. */
  predicate OwnerCurrent(t: Tables, row: MachineRow, config: Config, now: int)
  {
    && OwnerLeased(t, row, now)
    && t.nodes[row.owner.value.incarnation].epoch == config.epoch
    && t.nodes[row.owner.value.incarnation].build == config.build
  }

  /** The deployment lock is free, and the node still runs the stored configuration. */
  predicate CanLock(s: State, n: Incarnation)
  {
    n in s.nodes && s.pending == None && s.tables.config == s.nodes[n].config
  }

  predicate ValidReleasing(s: State, n: Incarnation)
  {
    && CanLock(s, n)
    && CheckOk(s.nodes[n])
    && Leased(s.tables, n, s.now)
    && s.tables.nodes[n].epoch == s.nodes[n].config.epoch
    && s.tables.nodes[n].build == s.nodes[n].config.build
  }

  predicate ValidServing(s: State, n: Incarnation)
  {
    ValidReleasing(s, n) && !s.tables.nodes[n].draining
  }

  /** The owner row names exactly this node and route. */
  predicate Names(row: MachineRow, n: Incarnation, r: Route)
  {
    row.owner == Some(Owner(n, r.connection)) && row.epoch == r.epoch && row.ownerRevision == r.revision
  }

  // ---- Time, leases and membership

  predicate TickOk(s: State, now: int, boots: map<Incarnation, nat>)
  {
    && now >= s.now
    && boots.Keys == s.nodes.Keys
    && forall n :: n in s.nodes ==> now - boots[n] <= s.nodes[n].floor + s.nodes[n].margin
  }

  function Least(a: int, b: int): int
  {
    if a <= b then a else b
  }

  function Tick(s: State, now: int, boots: map<Incarnation, nat>): State
    requires TickOk(s, now, boots)
  {
    s.(now := now,
       nodes := map n | n in s.nodes ::
         s.nodes[n].(boot := boots[n], floor := Least(s.nodes[n].floor, now - boots[n])))
  }

  predicate BootOk(s: State, n: Incarnation, ttl: nat, margin: nat)
  {
    n !in s.nodes && 0 < margin < ttl
  }

  function Boot(s: State, n: Incarnation, config: Config, ttl: nat, margin: nat, boot: nat): State
  {
    WithNode(s, n, Node(UNREGISTERED, config, ttl, margin, boot, s.now - boot, Registering(boot), false, map[]))
  }

  predicate RegisterOk(s: State, n: Incarnation)
  {
    && CanLock(s, n)
    && s.nodes[n].renewal.Registering?
    && (s.nodes[n].config.singleNode ==> forall i :: i in s.tables.nodes ==> !Leased(s.tables, i, s.now))
  }

  function Register(s: State, n: Incarnation, outcome: Outcome): State
    requires RegisterOk(s, n)
  {
    var node := s.nodes[n];
    var row := NodeRow(false, node.config.epoch, node.config.build, s.now + node.ttl);
    var t := s.tables.(nodes := s.tables.nodes[n := row]);
    Submit(WithNode(s, n, node.(renewal := if outcome == Committed then Granted(node.renewal.before) else Quiet)),
           t, outcome)
  }

  predicate RenewStartOk(s: State, n: Incarnation)
  {
    n in s.nodes && CheckOk(s.nodes[n]) && !s.nodes[n].lease.draining && s.nodes[n].renewal == Quiet
  }

  function RenewStart(s: State, n: Incarnation): State
    requires RenewStartOk(s, n)
  {
    WithNode(s, n, s.nodes[n].(renewal := Renewing(s.nodes[n].boot)))
  }

  /** Renewal does not ask that the lease is still unexpired. */
  predicate RenewOk(s: State, n: Incarnation)
  {
    && CanLock(s, n)
    && s.nodes[n].renewal.Renewing?
    && n in s.tables.nodes
    && !s.tables.nodes[n].draining
    && s.tables.nodes[n].epoch == s.nodes[n].config.epoch
    && s.tables.nodes[n].build == s.nodes[n].config.build
  }

  function Renew(s: State, n: Incarnation, outcome: Outcome): State
    requires RenewOk(s, n)
  {
    var node := s.nodes[n];
    var row := s.tables.nodes[n].(leaseUntil := s.now + node.ttl);
    var t := s.tables.(nodes := s.tables.nodes[n := row]);
    var next := if outcome == Committed then node.(renewal := Granted(node.renewal.before))
                else node.(renewal := Quiet, lease := node.lease.(ready := false));
    Submit(WithNode(s, n, next), t, outcome)
  }

  predicate RenewFailsOk(s: State, n: Incarnation)
  {
    n in s.nodes && s.nodes[n].renewal.Renewing?
  }

  function RenewFails(s: State, n: Incarnation, rowGone: bool): State
    requires RenewFailsOk(s, n)
  {
    var node := s.nodes[n];
    var lease := node.lease.(ready := false);
    WithNode(s, n, node.(renewal := Quiet, lease := if rowGone then Fence(lease) else lease))
  }

  predicate InstallOk(s: State, n: Incarnation)
  {
    n in s.nodes && s.nodes[n].renewal.Granted?
  }

  function InstallLease(s: State, n: Incarnation, clockReads: bool): State
    requires InstallOk(s, n)
  {
    var node := s.nodes[n];
    var reading := if clockReads then Some(node.boot) else None;
    var lease := InstallDeadline(node.lease, node.renewal.before, node.ttl, node.margin, reading);
    WithNode(s, n, node.(renewal := Quiet, lease := lease.(ready := !lease.fenced)))
  }

  predicate DrainOk(s: State, n: Incarnation)
  {
    ValidServing(s, n) && s.nodes[n].lease.draining
  }

  function Drain(s: State, n: Incarnation, outcome: Outcome): State
    requires DrainOk(s, n)
  {
    Submit(s, s.tables.(nodes := s.tables.nodes[n := s.tables.nodes[n].(draining := true)]), outcome)
  }

  /** The foreign key from owner rows refuses to delete a node that still owns a Machine. */
  predicate LeaveOk(s: State, n: Incarnation)
  {
    && CanLock(s, n)
    && n in s.tables.nodes
    && s.tables.nodes[n].draining
    && s.tables.nodes[n].epoch == s.nodes[n].config.epoch
    && s.tables.nodes[n].build == s.nodes[n].config.build
    && forall m :: m in s.tables.machines ==>
         !(s.tables.machines[m].owner.Some? && s.tables.machines[m].owner.value.incarnation == n)
  }

  function Leave(s: State, n: Incarnation, outcome: Outcome): State
    requires LeaveOk(s, n)
  {
    Submit(WithNode(s, n, s.nodes[n].(leaving := true)),
           s.tables.(nodes := s.tables.nodes - {n}), outcome)
  }

  predicate ReconfigureOk(s: State, config: Config)
  {
    && s.pending == None
    && config.epoch == s.tables.config.epoch + 1
    && forall i :: i in s.tables.nodes ==> !Leased(s.tables, i, s.now)
  }

  // ---- Claims and releases

  predicate ReserveOk(s: State, n: Incarnation, m: MachineId, c: Connection)
  {
    && n in s.nodes
    && m in s.tables.machines
    && IsReady(s.nodes[n].lease, s.nodes[n].boot)
    && R.Reserve(SlotOf(s.nodes[n], m).entry, c).Some?
  }

  function ReserveClaim(s: State, n: Incarnation, m: MachineId, c: Connection): State
    requires ReserveOk(s, n, m, c)
  {
    var slot := SlotOf(s.nodes[n], m);
    WithSlot(s, n, m, slot.(entry := R.Reserve(slot.entry, c).value, claims := slot.claims[c := Reserved]))
  }

  predicate InSlot(s: State, n: Incarnation, m: MachineId)
  {
    n in s.nodes && m in s.nodes[n].slots
  }

  predicate AtClaim(s: State, n: Incarnation, m: MachineId, c: Connection)
  {
    InSlot(s, n, m) && c in s.nodes[n].slots[m].claims
  }

  function ClaimRow(s: State, n: Incarnation, m: MachineId, c: Connection, revision: int): Option<MachineRow>
    requires m in s.tables.machines
  {
    var row := s.tables.machines[m];
    DoClaim(row, n, c, revision, OwnerLeased(s.tables, row, s.now))
  }

  predicate ClaimOk(s: State, n: Incarnation, m: MachineId, c: Connection, revision: int)
  {
    && AtClaim(s, n, m, c)
    && s.nodes[n].slots[m].claims[c] == Reserved
    && ValidServing(s, n)
    && m in s.tables.machines
    && ClaimRow(s, n, m, c, revision).Some?
  }

  function ClaimOwner(s: State, n: Incarnation, m: MachineId, c: Connection, revision: int, outcome: Outcome): State
    requires ClaimOk(s, n, m, c, revision)
  {
    var slot := s.nodes[n].slots[m];
    var row := ClaimRow(s, n, m, c, revision).value;
    var route := Route(revision, row.epoch, c);
    var stage := if outcome == Committed then Claimed(route) else Unsure(route);
    Submit(WithSlot(s, n, m, slot.(claims := slot.claims[c := stage])), WithMachine(s.tables, m, row), outcome)
  }

  predicate StageOk(s: State, n: Incarnation, m: MachineId, c: Connection, stages: set<ClaimStage>)
  {
    AtClaim(s, n, m, c) && s.nodes[n].slots[m].claims[c] in stages
  }

  function SetStage(s: State, n: Incarnation, m: MachineId, c: Connection, stage: ClaimStage): State
    requires AtClaim(s, n, m, c)
  {
    var slot := s.nodes[n].slots[m];
    WithSlot(s, n, m, slot.(claims := slot.claims[c := stage]))
  }

  /** An ambiguous claim hard-fences the node. */
  predicate ClaimLearnOk(s: State, n: Incarnation, m: MachineId, c: Connection)
  {
    AtClaim(s, n, m, c) && s.nodes[n].slots[m].claims[c].Unsure?
  }

  predicate FinishPendingOk(s: State, n: Incarnation, m: MachineId, c: Connection)
  {
    AtClaim(s, n, m, c) && s.nodes[n].slots[m].claims[c] == Refused
  }

  function FinishPending(s: State, n: Incarnation, m: MachineId, c: Connection): State
    requires FinishPendingOk(s, n, m, c)
  {
    var slot := s.nodes[n].slots[m];
    WithSlot(s, n, m, slot.(entry := R.FinishPending(slot.entry, c), claims := slot.claims - {c}))
  }

  predicate AtClaimed(s: State, n: Incarnation, m: MachineId, c: Connection)
  {
    AtClaim(s, n, m, c) && s.nodes[n].slots[m].claims[c].Claimed?
  }

  predicate InstallAccepted(s: State, n: Incarnation, m: MachineId, c: Connection)
    requires AtClaimed(s, n, m, c)
  {
    && IsReady(s.nodes[n].lease, s.nodes[n].boot)
    && R.Install(s.nodes[n].slots[m].entry, c, s.nodes[n].slots[m].claims[c].route).Some?
  }

  /** A refused installation closes the handle, whose owner row must then be withdrawn. */
  function InstallTunnel(s: State, n: Incarnation, m: MachineId, c: Connection): State
    requires AtClaimed(s, n, m, c)
  {
    var slot := s.nodes[n].slots[m];
    var route := slot.claims[c].route;
    if InstallAccepted(s, n, m, c) then
      WithSlot(s, n, m, slot.(entry := R.Install(slot.entry, c, route).value,
                              claims := slot.claims - {c},
                              live := slot.live[route := Tunnel(true, Serving)]))
    else SetStage(s, n, m, c, Withdrawn(route))
  }

  function ReleaseRow(s: State, n: Incarnation, m: MachineId, r: Route): Option<MachineRow>
    requires m in s.tables.machines
  {
    DoRelease(s.tables.machines[m], n, r.connection, r.epoch)
  }

  predicate WithdrawOk(s: State, n: Incarnation, m: MachineId, c: Connection)
  {
    && AtClaim(s, n, m, c)
    && s.nodes[n].slots[m].claims[c].Withdrawn?
    && ValidReleasing(s, n)
    && m in s.tables.machines
    && ReleaseRow(s, n, m, s.nodes[n].slots[m].claims[c].route).Some?
  }

  function Withdraw(s: State, n: Incarnation, m: MachineId, c: Connection, outcome: Outcome): State
    requires WithdrawOk(s, n, m, c)
  {
    var route := s.nodes[n].slots[m].claims[c].route;
    var row := ReleaseRow(s, n, m, route).value;
    Submit(SetStage(s, n, m, c, if outcome == Committed then Refused else WithdrawUnsure(route)),
           WithMachine(s.tables, m, row), outcome)
  }

  predicate WithdrawFailsOk(s: State, n: Incarnation, m: MachineId, c: Connection)
  {
    && AtClaim(s, n, m, c)
    && (s.nodes[n].slots[m].claims[c].Withdrawn? || s.nodes[n].slots[m].claims[c].WithdrawUnsure?)
  }

  predicate AtTunnel(s: State, n: Incarnation, m: MachineId, r: Route)
  {
    InSlot(s, n, m) && r in s.nodes[n].slots[m].live
  }

  function SetTunnel(s: State, n: Incarnation, m: MachineId, r: Route, tunnel: Tunnel): State
    requires AtTunnel(s, n, m, r)
  {
    var slot := s.nodes[n].slots[m];
    WithSlot(s, n, m, slot.(live := slot.live[r := tunnel]))
  }

  function CloseTunnel(s: State, n: Incarnation, m: MachineId, r: Route): State
    requires AtTunnel(s, n, m, r)
  {
    SetTunnel(s, n, m, r, s.nodes[n].slots[m].live[r].(open := false))
  }

  /** A tunnel task has ended and closed its handle; it now asks who releases the owner row. */
  predicate Ending(s: State, n: Incarnation, m: MachineId, r: Route)
  {
    && AtTunnel(s, n, m, r)
    && !s.nodes[n].slots[m].live[r].open
    && s.nodes[n].slots[m].live[r].stage == Serving
  }

  predicate BeginReleaseOk(s: State, n: Incarnation, m: MachineId, r: Route)
  {
    Ending(s, n, m, r) && R.ReleaseDecision(s.nodes[n].slots[m].entry, r).Some?
  }

  function BeginRelease(s: State, n: Incarnation, m: MachineId, r: Route): State
    requires BeginReleaseOk(s, n, m, r)
  {
    var slot := s.nodes[n].slots[m];
    var stage := if R.ReleaseDecision(slot.entry, r).value == R.Defer then Deferred else Releasing;
    WithSlot(s, n, m, slot.(entry := R.BeginRelease(slot.entry, r),
                            live := slot.live[r := Tunnel(false, stage)]))
  }

  predicate ReleaseOk(s: State, n: Incarnation, m: MachineId, r: Route)
  {
    && AtTunnel(s, n, m, r)
    && s.nodes[n].slots[m].live[r].stage == Releasing
    && ValidReleasing(s, n)
    && m in s.tables.machines
    && ReleaseRow(s, n, m, r).Some?
  }

  function ReleaseOwner(s: State, n: Incarnation, m: MachineId, r: Route, outcome: Outcome): State
    requires ReleaseOk(s, n, m, r)
  {
    var row := ReleaseRow(s, n, m, r).value;
    var stage := if outcome == Committed then Released else ReleaseUnsure;
    Submit(SetTunnel(s, n, m, r, Tunnel(false, stage)), WithMachine(s.tables, m, row), outcome)
  }

  predicate ReleaseFailsOk(s: State, n: Incarnation, m: MachineId, r: Route)
  {
    && AtTunnel(s, n, m, r)
    && (s.nodes[n].slots[m].live[r].stage == Releasing || s.nodes[n].slots[m].live[r].stage == ReleaseUnsure)
  }

  predicate FinishReleaseOk(s: State, n: Incarnation, m: MachineId, r: Route)
  {
    AtTunnel(s, n, m, r) && s.nodes[n].slots[m].live[r].stage == Released
  }

  function FinishRelease(s: State, n: Incarnation, m: MachineId, r: Route): State
    requires FinishReleaseOk(s, n, m, r)
  {
    var slot := s.nodes[n].slots[m];
    WithSlot(s, n, m, slot.(entry := R.FinishRelease(slot.entry, r), live := slot.live - {r}))
  }

  /** `close_all` runs only on a draining or fenced node. */
  predicate DrainSlotOk(s: State, n: Incarnation, m: MachineId)
  {
    InSlot(s, n, m) && (s.nodes[n].lease.draining || s.nodes[n].lease.fenced)
  }

  function DrainSlot(s: State, n: Incarnation, m: MachineId): State
    requires DrainSlotOk(s, n, m)
  {
    var slot := s.nodes[n].slots[m];
    WithSlot(s, n, m, slot.(entry := R.Drained(slot.entry)))
  }

  // ---- Invalidation

  predicate BeginTransitionOk(s: State, n: Incarnation, m: MachineId, r: Route)
  {
    InSlot(s, n, m) && R.BeginTransition(s.nodes[n].slots[m].entry, r).Some?
  }

  function BeginTransition(s: State, n: Incarnation, m: MachineId, r: Route): State
    requires BeginTransitionOk(s, n, m, r)
  {
    var slot := s.nodes[n].slots[m];
    WithSlot(s, n, m, slot.(entry := R.BeginTransition(slot.entry, r).value,
                            transition := Cleaning(r, slot.entry.pending)))
  }

  /** `begin_machine_transition` returns: the tunnel is cleaned up and the earlier claims are done. */
  predicate TransitionReadyOk(s: State, n: Incarnation, m: MachineId)
  {
    && InSlot(s, n, m)
    && var slot := s.nodes[n].slots[m];
    && slot.transition.Cleaning?
    && slot.transition.route in slot.live
    && (slot.live[slot.transition.route].stage == Deferred || slot.live[slot.transition.route].stage == Released)
    && slot.transition.waiting !! slot.entry.pending
    && CheckOk(s.nodes[n])
  }

  function SetTransition(s: State, n: Incarnation, m: MachineId, transition: Transition): State
    requires InSlot(s, n, m)
  {
    WithSlot(s, n, m, s.nodes[n].slots[m].(transition := transition))
  }

  /** Timeout, cancellation, a lost message or a failed release: the armed transition fences. */
  predicate AbandonOk(s: State, n: Incarnation, m: MachineId)
  {
    InSlot(s, n, m) && !s.nodes[n].slots[m].transition.Idle?
  }

  function Abandon(s: State, n: Incarnation, m: MachineId): State
    requires AbandonOk(s, n, m)
  {
    var slot := s.nodes[n].slots[m];
    Fenced(WithSlot(s, n, m, slot.(transition := Idle, ended := slot.ended + {slot.transition.route})), n)
  }

  /** `finish_machine_transition`. */
  function Finish(s: State, n: Incarnation, m: MachineId): State
    requires AbandonOk(s, n, m)
  {
    var slot := s.nodes[n].slots[m];
    var r := slot.transition.route;
    WithSlot(s, n, m, slot.(entry := R.FinishTransition(slot.entry, r),
                            live := slot.live - {r},
                            transition := Idle,
                            ended := slot.ended + {r}))
  }

  predicate AtPrepared(s: State, n: Incarnation, m: MachineId)
  {
    InSlot(s, n, m) && s.nodes[n].slots[m].transition.Prepared?
  }

  predicate DecidedAs(s: State, n: Incarnation, m: MachineId, committed: bool)
    requires AtPrepared(s, n, m)
  {
    var key := (m, s.nodes[n].slots[m].transition.route);
    && key in s.coordinators
    && s.coordinators[key].dest == n
    && s.coordinators[key].phase == Decided(committed)
  }

  predicate UndoOk(s: State, n: Incarnation, m: MachineId)
  {
    && AtPrepared(s, n, m)
    && DecidedAs(s, n, m, false)
    && ValidReleasing(s, n)
    && m in s.tables.machines
    && ReleaseRow(s, n, m, s.nodes[n].slots[m].transition.route).Some?
  }

  function Undo(s: State, n: Incarnation, m: MachineId, outcome: Outcome): State
    requires UndoOk(s, n, m)
  {
    var r := s.nodes[n].slots[m].transition.route;
    var row := ReleaseRow(s, n, m, r).value;
    Submit(SetTransition(s, n, m, if outcome == Committed then Settled(r) else Undoing(r)),
           WithMachine(s.tables, m, row), outcome)
  }

  predicate CoordinateOk(s: State, a: Incarnation, n: Incarnation, m: MachineId)
  {
    a in s.nodes && AtPrepared(s, n, m) && (m, s.nodes[n].slots[m].transition.route) !in s.coordinators
  }

  function Coordinate(s: State, a: Incarnation, n: Incarnation, m: MachineId, target: Lifecycle): State
    requires CoordinateOk(s, a, n, m)
  {
    s.(coordinators :=
         s.coordinators[(m, s.nodes[n].slots[m].transition.route) := Coordinator(a, n, target, Ready)])
  }

  predicate AtPhase(s: State, m: MachineId, r: Route, phase: Phase)
  {
    (m, r) in s.coordinators && s.coordinators[(m, r)].phase == phase
  }

  function SetPhase(s: State, m: MachineId, r: Route, phase: Phase): State
    requires (m, r) in s.coordinators
  {
    s.(coordinators := s.coordinators[(m, r) := s.coordinators[(m, r)].(phase := phase)])
  }

  function InvalidRow(s: State, a: Incarnation, m: MachineId, target: Lifecycle, expected: Expectation)
    : Option<MachineRow>
    requires a in s.nodes && m in s.tables.machines
  {
    var row := s.tables.machines[m];
    DoInvalidate(row, target, expected, OwnerCurrent(s.tables, row, s.nodes[a].config, s.now))
  }

  predicate CommitOk(s: State, m: MachineId, r: Route)
  {
    && AtPhase(s, m, r, Ready)
    && m in s.tables.machines
    && var c := s.coordinators[(m, r)];
    && ValidServing(s, c.source)
    && InvalidRow(s, c.source, m, c.target, Exact(c.dest, r)).Some?
  }

  function CommitInvalidation(s: State, m: MachineId, r: Route, outcome: Outcome): State
    requires CommitOk(s, m, r)
  {
    var c := s.coordinators[(m, r)];
    var row := InvalidRow(s, c.source, m, c.target, Exact(c.dest, r)).value;
    Submit(SetPhase(s, m, r, if outcome == Committed then Decided(true) else CommitUnsure),
           WithMachine(s.tables, m, row), outcome)
  }

  datatype Observation = SawCommitted | SawAborted | SawNeither

  /** Classify an ambiguous commit from one plain read of the rows. */
  function Observe(row: MachineRow, target: Lifecycle, expected: Expectation, ownerValid: bool): Observation
  {
    var revision := expected.Revision();
    if revision >= I64_MAX then SawNeither
    else if && row.lifecycle == target
            && row.revision == revision + 1
            && row.ownerRevision == revision + 1
            && row.owner == None
            && exists b :: b in row.bindings && row.bindings[b].revision == revision && !row.bindings[b].active
    then SawCommitted
    else if && row.lifecycle == Active
            && row.revision == revision
            && row.ownerRevision == revision
            && BoundAt(row, revision)
            && OwnerMatches(row, expected, ownerValid)
    then SawAborted
    else SawNeither
  }

  predicate ObserveOk(s: State, m: MachineId, r: Route)
  {
    && AtPhase(s, m, r, CommitUnsure)
    && m in s.tables.machines
    && s.coordinators[(m, r)].source in s.nodes
    && CheckOk(s.nodes[s.coordinators[(m, r)].source])
  }

  function ObserveCommit(s: State, m: MachineId, r: Route): State
    requires ObserveOk(s, m, r)
  {
    var c := s.coordinators[(m, r)];
    var row := s.tables.machines[m];
    SetPhase(s, m, r,
             match Observe(row, c.target, Exact(c.dest, r),
               OwnerCurrent(s.tables, row, s.nodes[c.source].config, s.now))
             case SawCommitted => Decided(true)
             case SawAborted => Decided(false)
             case SawNeither => Lost)
  }

  predicate OrphanOk(s: State, a: Incarnation, m: MachineId, target: Lifecycle, revision: int)
  {
    && ValidServing(s, a)
    && m in s.tables.machines
    && InvalidRow(s, a, m, target, NoValidOwner(revision)).Some?
  }

  // ---- Enrollment and lifecycle transactions that leave the owner alone

  predicate EnrollOk(s: State, n: Incarnation, m: MachineId, op: Transaction)
  {
    && ValidServing(s, n)
    && m in s.tables.machines
    && !op.Claim? && !op.Release? && !op.Invalidate?
    && (TimeOf(op).Some? ==> TimeOf(op).value == s.now)
    && (op.FailAttempt? && op.attempt in s.tables.machines[m].attempts ==>
          op.revision == s.tables.machines[m].attempts[op.attempt].revision)
    && Apply(s.tables.machines[m], op).Some?
  }

  predicate CreateOk(s: State, n: Incarnation, m: MachineId)
  {
    ValidServing(s, n) && m !in s.tables.machines
  }

  // ---- The whole step relation

  /** Leases, membership and configuration. */
  datatype MembershipAction =
    | ATick(now: int, boots: map<Incarnation, nat>)
    | ABoot(n: Incarnation, config: Config, ttl: nat, margin: nat, boot: nat)
    | ARegister(n: Incarnation, outcome: Outcome)
    | ARenewStart(n: Incarnation)
    | ARenew(n: Incarnation, outcome: Outcome)
    | ARenewFails(n: Incarnation, rowGone: bool)
    | AInstallLease(n: Incarnation, clockReads: bool)
    | AFence(n: Incarnation)
    | ABeginDrain(n: Incarnation)
    | ADrain(n: Incarnation, outcome: Outcome)
    | ALeave(n: Incarnation, outcome: Outcome)
    | AReconfigure(config: Config, outcome: Outcome)
    | ALand(commit: bool)

  ghost predicate MembershipEnabled(s: State, a: MembershipAction)
  {
    match a
    case ATick(now, boots) => TickOk(s, now, boots)
    case ABoot(n, _, ttl, margin, _) => BootOk(s, n, ttl, margin)
    case ARegister(n, _) => RegisterOk(s, n)
    case ARenewStart(n) => RenewStartOk(s, n)
    case ARenew(n, _) => RenewOk(s, n)
    case ARenewFails(n, _) => RenewFailsOk(s, n)
    case AInstallLease(n, _) => InstallOk(s, n)
    case AFence(n) => n in s.nodes
    case ABeginDrain(n) => n in s.nodes
    case ADrain(n, _) => DrainOk(s, n)
    case ALeave(n, _) => LeaveOk(s, n)
    case AReconfigure(config, _) => ReconfigureOk(s, config)
    case ALand(_) => s.pending.Some?
  }

  ghost function MembershipStep(s: State, a: MembershipAction): State
    requires MembershipEnabled(s, a)
  {
    match a
    case ATick(now, boots) => Tick(s, now, boots)
    case ABoot(n, config, ttl, margin, boot) => Boot(s, n, config, ttl, margin, boot)
    case ARegister(n, outcome) => Register(s, n, outcome)
    case ARenewStart(n) => RenewStart(s, n)
    case ARenew(n, outcome) => Renew(s, n, outcome)
    case ARenewFails(n, rowGone) => RenewFails(s, n, rowGone)
    case AInstallLease(n, clockReads) => InstallLease(s, n, clockReads)
    case AFence(n) => Fenced(s, n)
    case ABeginDrain(n) => WithNode(s, n, s.nodes[n].(lease := s.nodes[n].lease.(draining := true)))
    case ADrain(n, outcome) => Drain(s, n, outcome)
    case ALeave(n, outcome) => Leave(s, n, outcome)
    case AReconfigure(config, outcome) => Submit(s, s.tables.(config := config), outcome)
    case ALand(commit) => s.(tables := if commit then s.pending.value else s.tables, pending := None)
  }

  /** Enrollment, lifecycle and ownerless invalidation. */
  datatype EnrollmentAction =
    | AEnroll(n: Incarnation, m: MachineId, op: Transaction, outcome: Outcome)
    | ACreate(n: Incarnation, m: MachineId, token: Uuid, outcome: Outcome)
    | AOrphan(a: Incarnation, m: MachineId, target: Lifecycle, revision: int, outcome: Outcome)

  ghost predicate EnrollmentEnabled(s: State, a: EnrollmentAction)
  {
    match a
    case AEnroll(n, m, op, _) => EnrollOk(s, n, m, op)
    case ACreate(n, m, _, _) => CreateOk(s, n, m)
    case AOrphan(a, m, target, revision, _) => OrphanOk(s, a, m, target, revision)
  }

  ghost function EnrollmentStep(s: State, a: EnrollmentAction): State
    requires EnrollmentEnabled(s, a)
  {
    match a
    case AEnroll(n, m, op, outcome) =>
      Submit(s, WithMachine(s.tables, m, Apply(s.tables.machines[m], op).value), outcome)
    case ACreate(n, m, token, outcome) => Submit(s, WithMachine(s.tables, m, Created(token, s.now)), outcome)
    case AOrphan(a, m, target, revision, outcome) =>
      Submit(s, WithMachine(s.tables, m, InvalidRow(s, a, m, target, NoValidOwner(revision)).value), outcome)
  }

  /** Claims, tunnels and releases. */
  datatype OwnershipAction =
    | AReserve(n: Incarnation, m: MachineId, c: Connection)
    | AClaim(n: Incarnation, m: MachineId, c: Connection, revision: int, outcome: Outcome)
    | AClaimRefused(n: Incarnation, m: MachineId, c: Connection)
    | AClaimLearn(n: Incarnation, m: MachineId, c: Connection)
    | AFinishPending(n: Incarnation, m: MachineId, c: Connection)
    | AInstallTunnel(n: Incarnation, m: MachineId, c: Connection)
    | AWithdraw(n: Incarnation, m: MachineId, c: Connection, outcome: Outcome)
    | AWithdrawFails(n: Incarnation, m: MachineId, c: Connection)
    | AClose(n: Incarnation, m: MachineId, r: Route)
    | ABeginRelease(n: Incarnation, m: MachineId, r: Route)
    | ARelease(n: Incarnation, m: MachineId, r: Route, outcome: Outcome)
    | AReleaseFails(n: Incarnation, m: MachineId, r: Route)
    | AFinishRelease(n: Incarnation, m: MachineId, r: Route)
    | ADrainSlot(n: Incarnation, m: MachineId)

  ghost predicate OwnershipEnabled(s: State, a: OwnershipAction)
  {
    match a
    case AReserve(n, m, c) => ReserveOk(s, n, m, c)
    case AClaim(n, m, c, revision, _) => ClaimOk(s, n, m, c, revision)
    case AClaimRefused(n, m, c) => StageOk(s, n, m, c, {Reserved})
    case AClaimLearn(n, m, c) => ClaimLearnOk(s, n, m, c)
    case AFinishPending(n, m, c) => FinishPendingOk(s, n, m, c)
    case AInstallTunnel(n, m, c) => AtClaimed(s, n, m, c)
    case AWithdraw(n, m, c, _) => WithdrawOk(s, n, m, c)
    case AWithdrawFails(n, m, c) => WithdrawFailsOk(s, n, m, c)
    case AClose(n, m, r) => AtTunnel(s, n, m, r)
    case ABeginRelease(n, m, r) => BeginReleaseOk(s, n, m, r)
    case ARelease(n, m, r, _) => ReleaseOk(s, n, m, r)
    case AReleaseFails(n, m, r) => ReleaseFailsOk(s, n, m, r)
    case AFinishRelease(n, m, r) => FinishReleaseOk(s, n, m, r)
    case ADrainSlot(n, m) => DrainSlotOk(s, n, m)
  }

  ghost function OwnershipStep(s: State, a: OwnershipAction): State
    requires OwnershipEnabled(s, a)
  {
    match a
    case AReserve(n, m, c) => ReserveClaim(s, n, m, c)
    case AClaim(n, m, c, revision, outcome) => ClaimOwner(s, n, m, c, revision, outcome)
    case AClaimRefused(n, m, c) => SetStage(s, n, m, c, Refused)
    case AClaimLearn(n, m, c) => Fenced(SetStage(s, n, m, c, Refused), n)
    case AFinishPending(n, m, c) => FinishPending(s, n, m, c)
    case AInstallTunnel(n, m, c) => InstallTunnel(s, n, m, c)
    case AWithdraw(n, m, c, outcome) => Withdraw(s, n, m, c, outcome)
    case AWithdrawFails(n, m, c) => Fenced(SetStage(s, n, m, c, Refused), n)
    case AClose(n, m, r) => CloseTunnel(s, n, m, r)
    case ABeginRelease(n, m, r) => BeginRelease(s, n, m, r)
    case ARelease(n, m, r, outcome) => ReleaseOwner(s, n, m, r, outcome)
    case AReleaseFails(n, m, r) => Fenced(SetTunnel(s, n, m, r, Tunnel(false, Released)), n)
    case AFinishRelease(n, m, r) => FinishRelease(s, n, m, r)
    case ADrainSlot(n, m) => DrainSlot(s, n, m)
  }

  /** Two-party invalidation of an owned Machine. */
  datatype InvalidationAction =
    | ABeginTransition(n: Incarnation, m: MachineId, r: Route)
    | ATransitionReady(n: Incarnation, m: MachineId)
    | AAbandon(n: Incarnation, m: MachineId)
    | ACoordinate(a: Incarnation, n: Incarnation, m: MachineId, target: Lifecycle)
    | ACommit(m: MachineId, r: Route, outcome: Outcome)
    | ACommitRefused(m: MachineId, r: Route)
    | AObserve(m: MachineId, r: Route)
    | ALose(m: MachineId, r: Route)
    | AFinishCommitted(n: Incarnation, m: MachineId)
    | AUndo(n: Incarnation, m: MachineId, outcome: Outcome)
    | AFinishUndone(n: Incarnation, m: MachineId)

  ghost predicate InvalidationEnabled(s: State, a: InvalidationAction)
  {
    match a
    case ABeginTransition(n, m, r) => BeginTransitionOk(s, n, m, r)
    case ATransitionReady(n, m) => TransitionReadyOk(s, n, m)
    case AAbandon(n, m) => AbandonOk(s, n, m)
    case ACoordinate(a, n, m, _) => CoordinateOk(s, a, n, m)
    case ACommit(m, r, _) => CommitOk(s, m, r)
    case ACommitRefused(m, r) => AtPhase(s, m, r, Ready)
    case AObserve(m, r) => ObserveOk(s, m, r)
    case ALose(m, r) => AtPhase(s, m, r, Ready) || AtPhase(s, m, r, CommitUnsure)
    case AFinishCommitted(n, m) => AtPrepared(s, n, m) && DecidedAs(s, n, m, true)
    case AUndo(n, m, _) => UndoOk(s, n, m)
    case AFinishUndone(n, m) => InSlot(s, n, m) && s.nodes[n].slots[m].transition.Settled?
  }

  ghost function InvalidationStep(s: State, a: InvalidationAction): State
    requires InvalidationEnabled(s, a)
  {
    match a
    case ABeginTransition(n, m, r) => BeginTransition(s, n, m, r)
    case ATransitionReady(n, m) => SetTransition(s, n, m, Prepared(s.nodes[n].slots[m].transition.route))
    case AAbandon(n, m) => Abandon(s, n, m)
    case ACoordinate(a, n, m, target) => Coordinate(s, a, n, m, target)
    case ACommit(m, r, outcome) => CommitInvalidation(s, m, r, outcome)
    case ACommitRefused(m, r) => SetPhase(s, m, r, Decided(false))
    case AObserve(m, r) => ObserveCommit(s, m, r)
    case ALose(m, r) => SetPhase(s, m, r, Lost)
    case AFinishCommitted(n, m) => Finish(s, n, m)
    case AUndo(n, m, outcome) => Undo(s, n, m, outcome)
    case AFinishUndone(n, m) => Finish(s, n, m)
  }

  datatype Action =
    | OnMembership(membership: MembershipAction)
    | OnEnrollment(enrollment: EnrollmentAction)
    | OnOwnership(ownership: OwnershipAction)
    | OnInvalidation(invalidation: InvalidationAction)

  ghost predicate Enabled(s: State, a: Action)
  {
    match a
    case OnMembership(x) => MembershipEnabled(s, x)
    case OnEnrollment(x) => EnrollmentEnabled(s, x)
    case OnOwnership(x) => OwnershipEnabled(s, x)
    case OnInvalidation(x) => InvalidationEnabled(s, x)
  }

  ghost function Step(s: State, a: Action): State
    requires Enabled(s, a)
  {
    match a
    case OnMembership(x) => MembershipStep(s, x)
    case OnEnrollment(x) => EnrollmentStep(s, x)
    case OnOwnership(x) => OwnershipStep(s, x)
    case OnInvalidation(x) => InvalidationStep(s, x)
  }

  /** A new Deployment: one configuration, no nodes and no Machines. */
  ghost predicate Init(s: State)
  {
    && s.tables.nodes == map[]
    && s.tables.machines == map[]
    && s.pending == None
    && s.nodes == map[]
    && s.coordinators == map[]
  }

  ghost predicate IsRun(states: seq<State>, actions: seq<Action>)
  {
    && |states| == |actions| + 1
    && Init(states[0])
    && forall i :: 0 <= i < |actions| ==> Enabled(states[i], actions[i]) && states[i + 1] == Step(states[i], actions[i])
  }
}
