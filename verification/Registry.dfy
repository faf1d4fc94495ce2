/**
  The owner-local Relay registry. `Entry` is what its three maps say about one Machine; the
  functions are the critical sections taken under the registry lock, and the class keeps the
  maps themselves.
 */
module Registry {
  import opened Common
  import opened Lease

  datatype Exit = Transitioning(route: Route) | Releasing(route: Route)

  datatype Decision = Defer | Release

  datatype Entry = Entry(tunnel: Option<Route>, pending: set<Connection>, exit: Option<Exit>)

  const NO_ENTRY := Entry(None, {}, None)

  function Reserve(e: Entry, c: Connection): Option<Entry>
  {
    if e.exit.Some? || e.tunnel.Some? || c in e.pending then None
    else Some(e.(pending := e.pending + {c}))
  }

  function Install(e: Entry, c: Connection, route: Route): Option<Entry>
  {
    if e.exit.Some? || e.tunnel.Some? || c !in e.pending then None
    else Some(e.(tunnel := Some(route), pending := e.pending - {c}))
  }

  function FinishPending(e: Entry, c: Connection): Entry
  {
    e.(pending := e.pending - {c})
  }

  function BeginTransition(e: Entry, route: Route): Option<Entry>
  {
    if e.tunnel != Some(route) || e.exit.Some? then None
    else Some(e.(tunnel := None, exit := Some(Transitioning(route))))
  }

  function FinishTransition(e: Entry, route: Route): Entry
  {
    e.(tunnel := None, exit := if e.exit == Some(Transitioning(route)) then None else e.exit)
  }

  /** `None` is the refusing branch. */
  function ReleaseDecision(e: Entry, route: Route): Option<Decision>
  {
    match e.exit
    case None => Some(Release)
    case Some(Transitioning(expected)) => if expected == route then Some(Defer) else None
    case Some(Releasing(_)) => None
  }

  function BeginRelease(e: Entry, route: Route): Entry
  {
    if e.exit == None then e.(exit := Some(Releasing(route))) else e
  }

  function FinishRelease(e: Entry, route: Route): Entry
  {
    e.(tunnel := if e.tunnel == Some(route) then None else e.tunnel,
       exit := if e.exit == Some(Releasing(route)) then None else e.exit)
  }

  function Drained(e: Entry): Entry
  {
    e.(tunnel := None)
  }

  datatype Dispatch = Admitted | Fenced | Unavailable

  /** One tunnel's dispatch barrier, under the lease of its node. */
  class TunnelHandle {
    const route: Route
    const lease: NodeLease
    var open: bool
    var cleaned: bool

    constructor (route: Route, lease: NodeLease)
      ensures this.route == route && this.lease == lease && open && !cleaned
    {
      this.route := route;
      this.lease := lease;
      open, cleaned := true, false;
    }

    method CloseDispatch()
      modifies this`open
      ensures !open
    {
      open := false;
    }

    /** The lease check passes on what the clock source returned. */
    predicate Passes(source: Option<nat>)
      reads this, lease, lease.clock
    {
      Validated(lease.clock.last, source).Some? && CheckPasses(lease.View(), source.value)
    }

    /**
      Work is admitted exactly when the lease check passes and the barrier is still open. The check
      comes first: a failing one fences the node even when the barrier is already closed, and a
      passing one leaves the lease as it was.
     */
    method DispatchWork(source: Option<nat>) returns (r: Dispatch)
      modifies lease`fenced, lease.clock
      ensures r == if !old(Passes(source)) then Fenced else if open then Admitted else Dispatch.Unavailable
      ensures !old(Passes(source)) ==> lease.View() == Fence(old(lease.View()))
      ensures old(Passes(source)) ==> lease.View() == old(lease.View()) && lease.clock.last == source
    {
      var ok := lease.CheckNow(source);
      if !ok {
        return Fenced;
      }
      return if open then Admitted else Dispatch.Unavailable;
    }
  }

  class RelayRegistry {
    var tunnels: map<MachineId, TunnelHandle>
    var pending: set<(MachineId, Connection)>
    var exits: map<MachineId, Exit>

    function EntryOf(m: MachineId): Entry
      reads this
    {
      Entry(
        if m in tunnels then Some(tunnels[m].route) else None,
        set p | p in pending && p.0 == m :: p.1,
        if m in exits then Some(exits[m]) else None)
    }

    /** Only Machine `m` changed, and it is now `entry`. */
    twostate predicate Became(m: MachineId, entry: Entry)
      reads this
    {
      EntryOf(m) == entry && forall other :: other != m ==> EntryOf(other) == old(EntryOf(other))
    }

    constructor ()
      ensures forall m :: EntryOf(m) == NO_ENTRY
      ensures tunnels == map[] && pending == {} && exits == map[]
    {
      tunnels, pending, exits := map[], {}, map[];
    }

    method ReserveClaim(m: MachineId, c: Connection, ready: bool) returns (ok: bool)
      modifies this`pending
      ensures ok <==> ready && m !in exits && m !in tunnels && (m, c) !in old(pending)
      ensures pending == if ok then old(pending) + {(m, c)} else old(pending)
      ensures Became(m, if ok then Reserve(old(EntryOf(m)), c).value else old(EntryOf(m)))
    {
      if !ready || m in exits || m in tunnels || (m, c) in pending {
        return false;
      }
      pending := pending + {(m, c)};
      assert EntryOf(m).pending == old(EntryOf(m)).pending + {c};
      assert forall other :: other != m ==> EntryOf(other).pending == old(EntryOf(other)).pending;
      ok := true;
    }

    method InstallReserved(m: MachineId, c: Connection, handle: TunnelHandle, ready: bool) returns (ok: bool)
      modifies this`pending, this`tunnels
      ensures ok <==> ready && m !in exits && m !in old(tunnels) && (m, c) in old(pending)
      ensures tunnels == if ok then old(tunnels)[m := handle] else old(tunnels)
      ensures pending == if ok then old(pending) - {(m, c)} else old(pending)
      ensures Became(m, if ok then Install(old(EntryOf(m)), c, handle.route).value else old(EntryOf(m)))
    {
      if !ready || m in exits || m in tunnels || (m, c) !in pending {
        return false;
      }
      tunnels := tunnels[m := handle];
      pending := pending - {(m, c)};
      assert EntryOf(m).pending == old(EntryOf(m)).pending - {c};
      assert forall other :: other != m ==> EntryOf(other).pending == old(EntryOf(other)).pending;
      ok := true;
    }

    method CompletePending(m: MachineId, c: Connection)
      modifies this`pending
      ensures pending == old(pending) - {(m, c)}
      ensures Became(m, FinishPending(old(EntryOf(m)), c))
    {
      pending := pending - {(m, c)};
      assert EntryOf(m).pending == old(EntryOf(m)).pending - {c};
      assert forall other :: other != m ==> EntryOf(other).pending == old(EntryOf(other)).pending;
    }

    /**
      The locked half, whatever claims are pending: the handle of exactly this route leaves the map
      unless an exit is recorded, and the claims to wait for are collected.
     */
    method BeginMachineTransition(m: MachineId, route: Route)
      returns (handle: Option<TunnelHandle>, waiting: set<Connection>)
      modifies this`tunnels, this`exits
      ensures handle.Some? <==> m in old(tunnels) && old(tunnels)[m].route == route && m !in old(exits)
      ensures handle.Some? ==> handle.value == old(tunnels)[m]
      ensures handle.Some? ==> tunnels == old(tunnels) - {m} && exits == old(exits)[m := Transitioning(route)]
      ensures handle.None? ==> tunnels == old(tunnels) && exits == old(exits)
      ensures Became(m, if handle.Some? then BeginTransition(old(EntryOf(m)), route).value else old(EntryOf(m)))
      ensures forall c :: c in waiting <==> (m, c) in pending
    {
      waiting := set p | p in pending && p.0 == m :: p.1;
      if m !in tunnels || tunnels[m].route != route || m in exits {
        return None, waiting;
      }
      handle := Some(tunnels[m]);
      exits := exits[m := Transitioning(route)];
      tunnels := tunnels - {m};
      assert forall other :: other != m ==> EntryOf(other).tunnel == old(EntryOf(other)).tunnel;
    }

    method FinishMachineTransition(m: MachineId, route: Route) returns (handle: Option<TunnelHandle>)
      modifies this`tunnels, this`exits
      ensures tunnels == old(tunnels) - {m}
      ensures exits == if m in old(exits) && old(exits)[m] == Transitioning(route) then old(exits) - {m} else old(exits)
      ensures Became(m, FinishTransition(old(EntryOf(m)), route))
      ensures handle == if m in old(tunnels) then Some(old(tunnels)[m]) else None
    {
      handle := if m in tunnels then Some(tunnels[m]) else None;
      tunnels := tunnels - {m};
      if m in exits && exits[m] == Transitioning(route) {
        exits := exits - {m};
      }
      assert forall other :: other != m ==> EntryOf(other) == old(EntryOf(other));
    }

    method BeginOwnerRelease(m: MachineId, route: Route) returns (decision: Option<Decision>)
      modifies this`exits
      ensures decision == Some(Release) <==> m !in old(exits)
      ensures decision == Some(Defer) <==> m in old(exits) && old(exits)[m] == Transitioning(route)
      ensures exits == if m in old(exits) then old(exits) else old(exits)[m := Releasing(route)]
      ensures decision == ReleaseDecision(old(EntryOf(m)), route)
      ensures Became(m, BeginRelease(old(EntryOf(m)), route))
    {
      if m !in exits {
        exits := exits[m := Releasing(route)];
        return Some(Release);
      }
      decision := if exits[m] == Transitioning(route) then Some(Defer) else None;
    }

    method FinishOwnerRelease(m: MachineId, route: Route)
      modifies this`tunnels, this`exits
      ensures var own := m in old(tunnels) && old(tunnels)[m].route == route;
              tunnels == if own then old(tunnels) - {m} else old(tunnels)
      ensures exits == if m in old(exits) && old(exits)[m] == Releasing(route) then old(exits) - {m} else old(exits)
      ensures Became(m, FinishRelease(old(EntryOf(m)), route))
    {
      if m in tunnels && tunnels[m].route == route {
        tunnels := tunnels - {m};
      }
      if m in exits && exits[m] == Releasing(route) {
        exits := exits - {m};
      }
      assert forall other :: other != m ==> EntryOf(other) == old(EntryOf(other));
    }

    /** Every handle leaves the map; each is then closed in turn. */
    method CloseAll()
      modifies this`tunnels, tunnels.Values
      ensures forall m :: EntryOf(m) == Drained(old(EntryOf(m)))
      ensures forall h :: h in old(tunnels.Values) ==> !h.open
    {
      var handles := tunnels.Values;
      tunnels := map[];
      var left := handles;
      while left != {}
        invariant left <= handles
        invariant tunnels == map[] && pending == old(pending) && exits == old(exits)
        invariant forall h :: h in handles - left ==> !h.open
        decreases |left|
      {
        var h :| h in left;
        h.CloseDispatch();
        left := left - {h};
      }
    }
  }
}
