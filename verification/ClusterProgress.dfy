/** An invalidation can always be carried through: from every dispatching state a run commits it. */
module ClusterProgress {
  import opened Common
  import opened Lease
  import opened Durable
  import opened Cluster
  import opened ClusterInvariant
  import R = Registry
  import Theorems = ClusterTheorems
  import Ownership = ClusterOwnership
  import Membership = ClusterMembership
  import Witness = ClusterWitness

  // ---- Where routes come from ----

  /** While the epoch of `r` lasts, its owner row can only be this one or empty. */
  predicate Bound(row: MachineRow, n: Incarnation, r: Route)
  {
    r.epoch <= row.epoch && (row.epoch == r.epoch && row.owner.Some? ==> row.owner == Some(Owner(n, r.connection)))
  }

  /** The route is one this slot has committed a claim for. */
  ghost predicate Bears(slot: Slot, r: Route)
  {
    (exists c :: Certain(slot, c) && slot.claims[c].route == r) || r in slot.live
  }

  ghost predicate SlotBound(slot: Slot, row: MachineRow, n: Incarnation)
  {
    forall r :: Bears(slot, r) ==> Bound(row, n, r)
  }

  ghost predicate CoordinatorsBound(s: State)
  {
    forall m, r :: (m, r) in s.coordinators ==>
      m in s.tables.machines && Bound(s.tables.machines[m], s.coordinators[(m, r)].dest, r)
  }

  /** No two nodes ever hold one route. */
  ghost predicate AllBound(s: State)
  {
    (forall n, m :: InSlot(s, n, m) ==>
       m in s.tables.machines && SlotBound(s.nodes[n].slots[m], s.tables.machines[m], n))
    && CoordinatorsBound(s)
  }

  /** What a step may do to the routes of the slots: keep them, drop them, or add one just claimed. */
  ghost predicate RoutesFollow(s: State, s': State)
  {
    forall n, m, r :: InSlot(s', n, m) && Bears(s'.nodes[n].slots[m], r) ==>
      (InSlot(s, n, m) && Bears(s.nodes[n].slots[m], r))
      || (m in s'.tables.machines && Bound(s'.tables.machines[m], n, r))
  }

  /** A coordinator is kept with its destination, or made for a route its destination bears. */
  ghost predicate CoordinatorsFollow(s: State, s': State)
  {
    forall m, r :: (m, r) in s'.coordinators ==>
      ((m, r) in s.coordinators && s'.coordinators[(m, r)].dest == s.coordinators[(m, r)].dest)
      || (InSlot(s, s'.coordinators[(m, r)].dest, m) && Bears(s.nodes[s'.coordinators[(m, r)].dest].slots[m], r))
  }

  lemma SameSlotsFollow(s: State, s': State)
    requires s'.nodes.Keys <= s.nodes.Keys || forall n :: n in s'.nodes && n !in s.nodes ==> s'.nodes[n].slots == map[]
    requires forall n :: n in s.nodes && n in s'.nodes ==> s'.nodes[n].slots == s.nodes[n].slots
    ensures RoutesFollow(s, s')
  {
  }

  /** Only slot `m` of node `n` changed, and it bears nothing new. */
  lemma OneSlotFollows(s: State, s': State, n: Incarnation, m: MachineId, slot: Slot)
    requires n in s.nodes && n in s'.nodes && s'.nodes.Keys == s.nodes.Keys
    requires s'.nodes[n].slots == s.nodes[n].slots[m := slot]
    requires forall i :: i in s.nodes && i != n ==> s'.nodes[i].slots == s.nodes[i].slots
    requires forall r :: Bears(slot, r) ==>
               (InSlot(s, n, m) && Bears(s.nodes[n].slots[m], r))
               || (m in s'.tables.machines && Bound(s'.tables.machines[m], n, r))
    ensures RoutesFollow(s, s')
  {
    hide Bears, Bound;
    forall i, k, r | InSlot(s', i, k) && Bears(s'.nodes[i].slots[k], r)
      ensures (InSlot(s, i, k) && Bears(s.nodes[i].slots[k], r))
              || (k in s'.tables.machines && Bound(s'.tables.machines[k], i, r))
    {
      if i == n && k == m { assert s'.nodes[i].slots[k] == slot; }
    }
  }

  lemma MembershipFollows(s: State, a: MembershipAction)
    requires MembershipEnabled(s, a)
    ensures RoutesFollow(s, MembershipStep(s, a)) && CoordinatorsFollow(s, MembershipStep(s, a))
  {
    SameSlotsFollow(s, MembershipStep(s, a));
  }

  lemma EnrollmentFollows(s: State, a: EnrollmentAction)
    requires EnrollmentEnabled(s, a)
    ensures RoutesFollow(s, EnrollmentStep(s, a)) && CoordinatorsFollow(s, EnrollmentStep(s, a))
  {
    hide Apply, DoInvalidate;
    SameSlotsFollow(s, EnrollmentStep(s, a));
  }

  lemma RestageFollows(slot: Slot, c: Connection, stage: ClaimStage, r: Route)
    requires Ownership.Restages(slot, c, stage) && Bears(slot.(claims := slot.claims[c := stage]), r)
    ensures Bears(slot, r)
  {
    var next := slot.(claims := slot.claims[c := stage]);
    if r !in slot.live {
      var d :| Certain(next, d) && next.claims[d].route == r;
      assert Certain(slot, d) && slot.claims[d].route == r;
    }
  }

  // ---- Every step follows ----

  lemma ReserveFollows(s: State, n: Incarnation, m: MachineId, c: Connection)
    requires ReserveOk(s, n, m, c)
    ensures RoutesFollow(s, ReserveClaim(s, n, m, c))
  {
    var slot := SlotOf(s.nodes[n], m);
    var next := slot.(entry := R.Reserve(slot.entry, c).value, claims := slot.claims[c := Reserved]);
    forall r | Bears(next, r) ensures InSlot(s, n, m) && Bears(s.nodes[n].slots[m], r) {
      if r !in slot.live {
        var d :| Certain(next, d) && next.claims[d].route == r;
        assert Certain(slot, d) && slot.claims[d].route == r;
      }
    }
    OneSlotFollows(s, ReserveClaim(s, n, m, c), n, m, next);
  }

  lemma ClaimFollows(s: State, n: Incarnation, m: MachineId, c: Connection, revision: int, outcome: Outcome)
    requires ClaimOk(s, n, m, c, revision)
    ensures RoutesFollow(s, ClaimOwner(s, n, m, c, revision, outcome))
  {
    var s', slot := ClaimOwner(s, n, m, c, revision, outcome), s.nodes[n].slots[m];
    var row := ClaimRow(s, n, m, c, revision).value;
    var route := Route(revision, row.epoch, c);
    var next := slot.(claims := slot.claims[c := if outcome == Committed then Claimed(route) else Unsure(route)]);
    forall r | Bears(next, r)
      ensures Bears(slot, r) || (m in s'.tables.machines && Bound(s'.tables.machines[m], n, r))
    {
      if r !in slot.live {
        var d :| Certain(next, d) && next.claims[d].route == r;
        if d != c { assert Certain(slot, d) && slot.claims[d].route == r; }
      }
    }
    OneSlotFollows(s, s', n, m, next);
  }

  /** The slot bears no more than before. */
  ghost predicate Fewer(slot: Slot, next: Slot)
  {
    forall r :: Bears(next, r) ==> Bears(slot, r)
  }

  /** A step that only rewrites slot `m` of node `n`, whatever it does to leases, tables and pending ones. */
  ghost predicate Rewrites(s: State, s': State, n: Incarnation, m: MachineId, next: Slot)
  {
    && n in s.nodes && s'.nodes.Keys == s.nodes.Keys
    && s'.nodes[n].slots == s.nodes[n].slots[m := next]
    && (forall i :: i in s.nodes && i != n ==> s'.nodes[i].slots == s.nodes[i].slots)
  }

  lemma FewerFollows(s: State, s': State, n: Incarnation, m: MachineId, next: Slot)
    requires InSlot(s, n, m) && Rewrites(s, s', n, m, next) && Fewer(s.nodes[n].slots[m], next)
    ensures RoutesFollow(s, s')
  {
    hide Bears;
    OneSlotFollows(s, s', n, m, next);
  }

  lemma RestageIsFewer(slot: Slot, c: Connection, stage: ClaimStage)
    requires Ownership.Restages(slot, c, stage)
    ensures Fewer(slot, slot.(claims := slot.claims[c := stage]))
  {
    forall r | Bears(slot.(claims := slot.claims[c := stage]), r) ensures Bears(slot, r) {
      RestageFollows(slot, c, stage, r);
    }
  }

  lemma DropIsFewer(slot: Slot, entry: R.Entry, c: Connection, live: map<Route, Tunnel>)
    requires forall r :: r in live ==> r in slot.live || (Certain(slot, c) && slot.claims[c].route == r)
    ensures Fewer(slot, slot.(entry := entry, claims := slot.claims - {c}, live := live))
  {
    var next := slot.(entry := entry, claims := slot.claims - {c}, live := live);
    forall r | Bears(next, r) ensures Bears(slot, r) {
      if r !in live {
        var d :| Certain(next, d) && next.claims[d].route == r;
        assert Certain(slot, d) && slot.claims[d].route == r;
      }
    }
  }

  lemma SameLiveIsFewer(slot: Slot, entry: R.Entry, live: map<Route, Tunnel>, transition: Transition, ended: set<Route>)
    requires live.Keys <= slot.live.Keys
    ensures Fewer(slot, slot.(entry := entry, live := live, transition := transition, ended := ended))
  {
    var next := slot.(entry := entry, live := live, transition := transition, ended := ended);
    forall r | Bears(next, r) ensures Bears(slot, r) {
      if r !in live {
        var d :| Certain(next, d) && next.claims[d].route == r;
        assert Certain(slot, d) && slot.claims[d].route == r;
      }
    }
  }

  lemma ClaimSideFollows(s: State, a: OwnershipAction)
    requires OwnershipEnabled(s, a) && Theorems.ClaimSide(a)
    ensures RoutesFollow(s, OwnershipStep(s, a))
  {
    hide Bears, RoutesFollow, ValidServing, ValidReleasing, DoClaim, DoRelease, IsReady, ReserveOk, ClaimOk, Fewer;
    var s' := OwnershipStep(s, a);
    match a
    case AReserve(n, m, c) => ReserveFollows(s, n, m, c);
    case AClaim(n, m, c, revision, outcome) => ClaimFollows(s, n, m, c, revision, outcome);
    case AClaimRefused(n, m, c) =>
      RestageIsFewer(s.nodes[n].slots[m], c, Refused);
      FewerFollows(s, s', n, m, s'.nodes[n].slots[m]);
    case AClaimLearn(n, m, c) =>
      RestageIsFewer(s.nodes[n].slots[m], c, Refused);
      FewerFollows(s, s', n, m, s'.nodes[n].slots[m]);
    case AFinishPending(n, m, c) =>
      var slot := s.nodes[n].slots[m];
      DropIsFewer(slot, R.FinishPending(slot.entry, c), c, slot.live);
      FewerFollows(s, s', n, m, s'.nodes[n].slots[m]);
    case AInstallTunnel(n, m, c) =>
      var slot := s.nodes[n].slots[m];
      var route := slot.claims[c].route;
      if InstallAccepted(s, n, m, c) {
        DropIsFewer(slot, R.Install(slot.entry, c, route).value, c, slot.live[route := Tunnel(true, Serving)]);
      } else {
        RestageIsFewer(slot, c, Withdrawn(route));
      }
      FewerFollows(s, s', n, m, s'.nodes[n].slots[m]);
    case AWithdraw(n, m, c, outcome) =>
      var slot := s.nodes[n].slots[m];
      RestageIsFewer(slot, c, if outcome == Committed then Refused else WithdrawUnsure(slot.claims[c].route));
      FewerFollows(s, s', n, m, s'.nodes[n].slots[m]);
    case AWithdrawFails(n, m, c) =>
      RestageIsFewer(s.nodes[n].slots[m], c, Refused);
      FewerFollows(s, s', n, m, s'.nodes[n].slots[m]);
  }

  lemma ReleaseSideFollows(s: State, a: OwnershipAction)
    requires OwnershipEnabled(s, a) && !Theorems.ClaimSide(a)
    ensures RoutesFollow(s, OwnershipStep(s, a))
  {
    hide Bears, RoutesFollow, ValidServing, ValidReleasing, DoClaim, DoRelease, IsReady, ReserveOk, ClaimOk, Fewer;
    var s' := OwnershipStep(s, a);
    var n, m := a.n, a.m;
    var slot, next := s.nodes[n].slots[m], s'.nodes[n].slots[m];
    SameLiveIsFewer(slot, next.entry, next.live, next.transition, next.ended);
    FewerFollows(s, s', n, m, next);
  }

  predicate SlotSide(a: InvalidationAction)
  {
    a.ABeginTransition? || a.ATransitionReady? || a.AAbandon? || a.AFinishCommitted? || a.AUndo? || a.AFinishUndone?
  }

  lemma SlotSideFollows(s: State, a: InvalidationAction)
    requires InvalidationEnabled(s, a) && SlotSide(a)
    ensures RoutesFollow(s, InvalidationStep(s, a)) && CoordinatorsFollow(s, InvalidationStep(s, a))
  {
    hide RoutesFollow, ValidServing, ValidReleasing, DoInvalidate, DoRelease, Fewer, Bears;
    var s' := InvalidationStep(s, a);
    var n, m := a.n, a.m;
    var slot, next := s.nodes[n].slots[m], s'.nodes[n].slots[m];
    SameLiveIsFewer(slot, next.entry, next.live, next.transition, next.ended);
    FewerFollows(s, s', n, m, next);
  }

  /** A prepared slot bears the route its coordinator is made for. */
  lemma PreparedBears(s: State, n: Incarnation, m: MachineId)
    requires Inv(s) && AtPrepared(s, n, m)
    ensures Bears(s.nodes[n].slots[m], s.nodes[n].slots[m].transition.route)
  {
    Ownership.SlotFacts(s, n, m);
  }

  lemma CoordinateFollows(s: State, a: Incarnation, n: Incarnation, m: MachineId, target: Lifecycle)
    requires Inv(s) && CoordinateOk(s, a, n, m)
    ensures var s' := Coordinate(s, a, n, m, target); RoutesFollow(s, s') && CoordinatorsFollow(s, s')
  {
    PreparedBears(s, n, m);
    hide Inv, Bears;
    SameSlotsFollow(s, Coordinate(s, a, n, m, target));
  }

  /** Changing a phase, whatever is submitted with it. */
  lemma PhaseFollows(s: State, s': State, m: MachineId, r: Route, phase: Phase)
    requires (m, r) in s.coordinators && s'.nodes == s.nodes
    requires s'.coordinators == SetPhase(s, m, r, phase).coordinators
    ensures RoutesFollow(s, s') && CoordinatorsFollow(s, s')
  {
    hide Bears;
    SameSlotsFollow(s, s');
  }

  lemma CoordinatorSideFollows(s: State, a: InvalidationAction)
    requires Inv(s) && InvalidationEnabled(s, a) && !SlotSide(a)
    ensures RoutesFollow(s, InvalidationStep(s, a)) && CoordinatorsFollow(s, InvalidationStep(s, a))
  {
    hide Inv, RoutesFollow, CoordinatorsFollow, ValidServing, ValidReleasing, DoInvalidate, DoRelease, Bears, Observe;
    var s' := InvalidationStep(s, a);
    match a {
      case ACoordinate(from, n, m, target) => CoordinateFollows(s, from, n, m, target);
      case ACommit(m, r, outcome) => PhaseFollows(s, s', m, r, s'.coordinators[(m, r)].phase);
      case ACommitRefused(m, r) => PhaseFollows(s, s', m, r, s'.coordinators[(m, r)].phase);
      case AObserve(m, r) => PhaseFollows(s, s', m, r, s'.coordinators[(m, r)].phase);
      case ALose(m, r) => PhaseFollows(s, s', m, r, s'.coordinators[(m, r)].phase);
      case _ =>
    }
  }

  lemma OwnershipFollows(s: State, a: OwnershipAction)
    requires OwnershipEnabled(s, a)
    ensures RoutesFollow(s, OwnershipStep(s, a)) && CoordinatorsFollow(s, OwnershipStep(s, a))
  {
    hide RoutesFollow, Bears, ValidServing, ValidReleasing, DoClaim, DoRelease, IsReady;
    if Theorems.ClaimSide(a) {
      ClaimSideFollows(s, a);
    } else {
      ReleaseSideFollows(s, a);
    }
  }

  lemma StepFollows(s: State, a: Action)
    requires Inv(s) && Enabled(s, a)
    ensures RoutesFollow(s, Step(s, a)) && CoordinatorsFollow(s, Step(s, a))
  {
    hide Inv, RoutesFollow, CoordinatorsFollow, SlotSide;
    match a
    case OnMembership(x) => MembershipFollows(s, x);
    case OnEnrollment(x) => EnrollmentFollows(s, x);
    case OnOwnership(x) => OwnershipFollows(s, x);
    case OnInvalidation(x) =>
      if SlotSide(x) {
        SlotSideFollows(s, x);
      } else {
        CoordinatorSideFollows(s, x);
      }
  }

  /** Rows move forward: what was bound stays bound. */
  lemma BoundStays(t: Tables, next: Tables, n: Incarnation, m: MachineId, r: Route)
    requires Ahead(t, next) && m in t.machines && Bound(t.machines[m], n, r)
    ensures m in next.machines && Bound(next.machines[m], n, r)
  {
  }

  lemma BoundFollows(s: State, s': State)
    requires AllBound(s) && RoutesFollow(s, s') && CoordinatorsFollow(s, s') && Ahead(s.tables, s'.tables)
    requires forall n, m :: InSlot(s', n, m) ==> m in s'.tables.machines
    ensures AllBound(s')
  {
    hide Bears, Bound, Ahead;
    forall n, m, r | InSlot(s', n, m) && Bears(s'.nodes[n].slots[m], r) ensures Bound(s'.tables.machines[m], n, r) {
      if InSlot(s, n, m) && Bears(s.nodes[n].slots[m], r) {
        BoundStays(s.tables, s'.tables, n, m, r);
      }
    }
    forall m, r | (m, r) in s'.coordinators
      ensures m in s'.tables.machines && Bound(s'.tables.machines[m], s'.coordinators[(m, r)].dest, r)
    {
      BoundStays(s.tables, s'.tables, s'.coordinators[(m, r)].dest, m, r);
    }
  }

  lemma StepBound(s: State, a: Action)
    requires Inv(s) && AllBound(s) && Enabled(s, a)
    ensures AllBound(Step(s, a))
  {
    hide Inv, AllBound, RoutesFollow, CoordinatorsFollow, Enabled, Step, Ahead, SlotOk;
    var s' := Step(s, a);
    StepFollows(s, a);
    Theorems.StepAhead(s, a);
    Theorems.StepHolds(s, a);
    forall n, m | InSlot(s', n, m) ensures m in s'.tables.machines {
      Ownership.SlotFacts(s', n, m);
    }
    BoundFollows(s, s');
  }

  lemma {:induction false} RunBound(states: seq<State>, actions: seq<Action>, i: nat)
    requires IsRun(states, actions) && i < |states|
    ensures AllBound(states[i])
  {
    hide Enabled, Step, Bears, Bound;
    if i > 0 {
      RunBound(states, actions, i - 1);
      Theorems.RunHolds(states, actions, i - 1);
      hide Inv, AllBound;
      StepBound(states[i - 1], actions[i - 1]);
    }
  }

  // ---- The run of an invalidation ----

  /** Node `n` dispatches for Machine `m` over its installed tunnel `r`, and nothing is releasing it. */
  ghost predicate Owning(s: State, n: Incarnation, m: MachineId, r: Route)
  {
    Theorems.CanDispatch(s, n, m, r) && InSlot(s, n, m)
    && s.nodes[n].slots[m].entry.tunnel == Some(r) && s.nodes[n].slots[m].entry.exit == None
  }

  /** Every pending claim can still be given up without touching the owner row. */
  predicate Refusable(slot: Slot)
  {
    forall c :: c in slot.claims ==> slot.claims[c] == Reserved || slot.claims[c] == Refused
  }

  /** A transition begins in every state whose tunnel is `r`, whatever claims are pending. */
  lemma TransitionBegins(s: State, n: Incarnation, m: MachineId, r: Route)
    requires InSlot(s, n, m) && s.nodes[n].slots[m].entry.tunnel == Some(r) && s.nodes[n].slots[m].entry.exit == None
    ensures Enabled(s, OnInvalidation(ABeginTransition(n, m, r)))
    ensures var next := Step(s, OnInvalidation(ABeginTransition(n, m, r))).nodes[n].slots[m];
            next.transition == Cleaning(r, s.nodes[n].slots[m].entry.pending)
            && next.entry == R.Entry(None, s.nodes[n].slots[m].entry.pending, Some(R.Transitioning(r)))
  {
  }

  /** The states of a local invalidation differ from `s` in one slot. */
  lemma SlotTwice(s: State, n: Incarnation, m: MachineId, a: Slot, b: Slot)
    requires n in s.nodes
    ensures WithSlot(WithSlot(s, n, m, a), n, m, b) == WithSlot(s, n, m, b)
  {
    assert s.nodes[n].slots[m := a][m := b] == s.nodes[n].slots[m := b];
    assert s.nodes[n := s.nodes[n].(slots := s.nodes[n].slots[m := a])]
             [n := s.nodes[n].(slots := s.nodes[n].slots[m := b])]
           == s.nodes[n := s.nodes[n].(slots := s.nodes[n].slots[m := b])];
  }

  ghost predicate EndsIn(states: seq<State>, actions: seq<Action>, s: State)
  {
    IsRun(states, actions) && states[|states| - 1] == s
  }

  /** One more step, rewriting slot `m` of node `n`. */
  lemma Then(states: seq<State>, actions: seq<Action>, s: State, a: Action, next: State)
    returns (more: seq<State>, acts: seq<Action>)
    requires EndsIn(states, actions, s) && Enabled(s, a) && Step(s, a) == next
    ensures EndsIn(more, acts, next) && states <= more && actions <= acts
  {
    hide Enabled, Step;
    Witness.Extend(states, actions, a);
    more, acts := states + [next], actions + [a];
  }

  lemma OneClaimFinishes(s: State, n: Incarnation, m: MachineId, slot: Slot, c: Connection)
    requires n in s.nodes && c in slot.claims && slot.claims[c] == Refused
    ensures var at := WithSlot(s, n, m, slot);
            var next := slot.(entry := R.FinishPending(slot.entry, c), claims := slot.claims - {c});
            Enabled(at, OnOwnership(AFinishPending(n, m, c)))
            && Step(at, OnOwnership(AFinishPending(n, m, c))) == WithSlot(s, n, m, next)
  {
    SlotTwice(s, n, m, slot, slot.(entry := R.FinishPending(slot.entry, c), claims := slot.claims - {c}));
  }

  lemma OneClaimRefuses(s: State, n: Incarnation, m: MachineId, slot: Slot, c: Connection)
    requires n in s.nodes && c in slot.claims && slot.claims[c] == Reserved
    ensures var at := WithSlot(s, n, m, slot);
            var next := slot.(claims := slot.claims[c := Refused]);
            Enabled(at, OnOwnership(AClaimRefused(n, m, c)))
            && Step(at, OnOwnership(AClaimRefused(n, m, c))) == WithSlot(s, n, m, next)
  {
    SlotTwice(s, n, m, slot, slot.(claims := slot.claims[c := Refused]));
  }

  /** All pending claims of the slot are given up. */
  lemma {:induction false} ClaimsFinish(states: seq<State>, actions: seq<Action>, s: State,
                                        n: Incarnation, m: MachineId, slot: Slot)
    returns (more: seq<State>, acts: seq<Action>)
    requires n in s.nodes && EndsIn(states, actions, WithSlot(s, n, m, slot))
    requires Refusable(slot) && slot.entry.pending == slot.claims.Keys
    ensures EndsIn(more, acts, WithSlot(s, n, m, slot.(entry := slot.entry.(pending := {}), claims := map[])))
    ensures states <= more && actions <= acts
    decreases |slot.claims|
  {
    hide Enabled, Step, EndsIn, WithSlot;
    if slot.claims == map[] {
      assert slot.entry.pending == {};
      more, acts := states, actions;
    } else {
      var c :| c in slot.claims;
      var refused := slot.(claims := slot.claims[c := Refused]);
      var next := slot.(entry := R.FinishPending(slot.entry, c), claims := slot.claims - {c});
      assert refused.claims - {c} == next.claims;
      if slot.claims[c] == Reserved {
        OneClaimRefuses(s, n, m, slot, c);
        more, acts := Then(states, actions, WithSlot(s, n, m, slot), OnOwnership(AClaimRefused(n, m, c)),
                           WithSlot(s, n, m, refused));
      } else {
        assert slot.claims[c := Refused] == slot.claims;
        more, acts := states, actions;
      }
      OneClaimFinishes(s, n, m, refused, c);
      var more2, acts2 := Then(more, acts, WithSlot(s, n, m, refused), OnOwnership(AFinishPending(n, m, c)),
                               WithSlot(s, n, m, next));
      assert |next.claims| < |slot.claims| by {
        assert next.claims.Keys == slot.claims.Keys - {c};
        assert |next.claims| == |next.claims.Keys| && |slot.claims| == |slot.claims.Keys|;
      }
      more, acts := ClaimsFinish(more2, acts2, s, n, m, next);
    }
  }

  // The slot at each stage of an undisturbed transition of `r`.

  function Started(slot: Slot, r: Route): Slot
  {
    slot.(entry := R.Entry(None, slot.entry.pending, Some(R.Transitioning(r))),
          transition := Cleaning(r, slot.entry.pending))
  }

  function Quiet(slot: Slot, r: Route): Slot
  {
    Started(slot, r).(entry := R.Entry(None, {}, Some(R.Transitioning(r))), claims := map[])
  }

  function Closed(slot: Slot, r: Route): Slot
  {
    Quiet(slot, r).(live := slot.live[r := Tunnel(false, TunnelStage.Serving)])
  }

  function DeferredTo(slot: Slot, r: Route): Slot
  {
    Quiet(slot, r).(live := slot.live[r := Tunnel(false, Deferred)])
  }

  function Ready(slot: Slot, r: Route): Slot
  {
    DeferredTo(slot, r).(transition := Prepared(r))
  }

  /** What the owner's half of the run needs of the slot it starts from. */
  predicate Startable(slot: Slot, r: Route)
  {
    slot.entry.tunnel == Some(r) && slot.entry.exit == None && slot.entry.pending == slot.claims.Keys
    && r in slot.live && slot.live[r].stage == TunnelStage.Serving && Refusable(slot)
  }

  /** The owner's half: the tunnel is taken out, the claims end, and the transition is prepared. */
  lemma OwnerPrepares(states: seq<State>, actions: seq<Action>, s: State, n: Incarnation, m: MachineId, r: Route)
    returns (more: seq<State>, acts: seq<Action>)
    requires EndsIn(states, actions, s) && InSlot(s, n, m) && CheckOk(s.nodes[n])
    requires Startable(s.nodes[n].slots[m], r)
    ensures EndsIn(more, acts, WithSlot(s, n, m, Ready(s.nodes[n].slots[m], r)))
    ensures states <= more && actions <= acts
  {
    var slot := s.nodes[n].slots[m];
    StartStep(s, n, m, r);
    CloseStep(s, n, m, r);
    DeferStep(s, n, m, r);
    ReadyStep(s, n, m, r);
    hide Enabled, Step, EndsIn, WithSlot;
    var begin := OnInvalidation(ABeginTransition(n, m, r));
    var m1, a1 := Then(states, actions, s, begin, WithSlot(s, n, m, Started(slot, r)));
    var m2, a2 := ClaimsFinish(m1, a1, s, n, m, Started(slot, r));
    var m3, a3 := Then(m2, a2, WithSlot(s, n, m, Quiet(slot, r)), OnOwnership(AClose(n, m, r)),
                       WithSlot(s, n, m, Closed(slot, r)));
    var m4, a4 := Then(m3, a3, WithSlot(s, n, m, Closed(slot, r)), OnOwnership(ABeginRelease(n, m, r)),
                       WithSlot(s, n, m, DeferredTo(slot, r)));
    more, acts := Then(m4, a4, WithSlot(s, n, m, DeferredTo(slot, r)), OnInvalidation(ATransitionReady(n, m)),
                       WithSlot(s, n, m, Ready(slot, r)));
  }

  lemma StartStep(s: State, n: Incarnation, m: MachineId, r: Route)
    requires InSlot(s, n, m) && Startable(s.nodes[n].slots[m], r)
    ensures Enabled(s, OnInvalidation(ABeginTransition(n, m, r)))
    ensures Step(s, OnInvalidation(ABeginTransition(n, m, r))) == WithSlot(s, n, m, Started(s.nodes[n].slots[m], r))
  {
    TransitionBegins(s, n, m, r);
  }

  lemma CloseStep(s: State, n: Incarnation, m: MachineId, r: Route)
    requires InSlot(s, n, m) && Startable(s.nodes[n].slots[m], r)
    ensures var slot := s.nodes[n].slots[m];
            var at, a := WithSlot(s, n, m, Quiet(slot, r)), OnOwnership(AClose(n, m, r));
            Enabled(at, a) && Step(at, a) == WithSlot(s, n, m, Closed(slot, r))
  {
    var slot := s.nodes[n].slots[m];
    SlotTwice(s, n, m, Quiet(slot, r), Closed(slot, r));
  }

  lemma DeferStep(s: State, n: Incarnation, m: MachineId, r: Route)
    requires InSlot(s, n, m) && Startable(s.nodes[n].slots[m], r)
    ensures var slot := s.nodes[n].slots[m];
            var at, a := WithSlot(s, n, m, Closed(slot, r)), OnOwnership(ABeginRelease(n, m, r));
            Enabled(at, a) && Step(at, a) == WithSlot(s, n, m, DeferredTo(slot, r))
  {
    var slot := s.nodes[n].slots[m];
    SlotTwice(s, n, m, Closed(slot, r), DeferredTo(slot, r));
    var closed := slot.live[r := Tunnel(false, TunnelStage.Serving)];
    assert closed[r := Tunnel(false, Deferred)] == slot.live[r := Tunnel(false, Deferred)];
  }

  lemma ReadyStep(s: State, n: Incarnation, m: MachineId, r: Route)
    requires InSlot(s, n, m) && Startable(s.nodes[n].slots[m], r) && CheckOk(s.nodes[n])
    ensures var slot := s.nodes[n].slots[m];
            var at, a := WithSlot(s, n, m, DeferredTo(slot, r)), OnInvalidation(ATransitionReady(n, m));
            Enabled(at, a) && Step(at, a) == WithSlot(s, n, m, Ready(slot, r))
  {
    var slot := s.nodes[n].slots[m];
    SlotTwice(s, n, m, DeferredTo(slot, r), Ready(slot, r));
  }

  // ---- The coordinator's half ----

  function Invalidated(row: MachineRow, target: Lifecycle): MachineRow
  {
    row.(lifecycle := target, revision := row.revision + 1, tokens := CancelIssued(row.tokens),
         attempts := FailOpen(row.attempts), bindings := RevokeAt(row.bindings, row.revision),
         ownerRevision := row.revision + 1, owner := None)
  }

  /** The owner's row is one an invalidation of exactly this route accepts. */
  lemma RowIsInvalidated(row: MachineRow, n: Incarnation, r: Route, target: Lifecycle, valid: bool)
    requires WellFormed(row) && Names(row, n, r) && row.revision < I64_MAX && (target == Pending || target == Disabled)
    ensures DoInvalidate(row, target, Exact(n, r), valid) == Some(Invalidated(row, target))
  {
    assert BoundAt(row, row.revision) by {
      var b :| IsActive(row, b);
      assert row.bindings[b].revision == row.revision;
    }
  }

  lemma CoordinatedDestination(s: State, n: Incarnation, m: MachineId, r: Route)
    requires Inv(s) && AllBound(s) && (m, r) in s.coordinators
    requires m in s.tables.machines && Names(s.tables.machines[m], n, r)
    ensures s.coordinators[(m, r)].dest == n && !Holds(SlotOf(s.nodes[n], m), r)
  {
    assert Bound(s.tables.machines[m], s.coordinators[(m, r)].dest, r);
    assert CoordinatorOk(s, m, r, s.tables) by {
      hide SlotsOk, NodesOk, TablesOk, Holds;
    }
  }

  /** Nobody coordinates this route yet: its owner has never been prepared for it. */
  lemma NotCoordinated(s: State, n: Incarnation, m: MachineId, r: Route)
    requires Inv(s) && AllBound(s) && Theorems.CanDispatch(s, n, m, r)
    requires m in s.tables.machines && Names(s.tables.machines[m], n, r)
    ensures (m, r) !in s.coordinators
  {
    hide Inv, AllBound, Names, Holds;
    if (m, r) in s.coordinators {
      CoordinatedDestination(s, n, m, r);
    }
  }

  lemma CoordinateStep(s: State, at: State, a: Incarnation, n: Incarnation, m: MachineId, r: Route, target: Lifecycle)
    requires a in s.nodes && InSlot(s, n, m) && (m, r) !in s.coordinators
    requires at == WithSlot(s, n, m, Ready(s.nodes[n].slots[m], r))
    ensures var act := OnInvalidation(ACoordinate(a, n, m, target));
            Enabled(at, act)
            && Step(at, act) == at.(coordinators := s.coordinators[(m, r) := Coordinator(a, n, target, Phase.Ready)])
  {
  }

  lemma CommitStep(s: State, at: State, a: Incarnation, n: Incarnation, m: MachineId, r: Route, target: Lifecycle)
    requires InSlot(s, n, m) && ValidServing(s, a) && m in s.tables.machines
    requires WellFormed(s.tables.machines[m]) && Names(s.tables.machines[m], n, r)
    requires s.tables.machines[m].revision < I64_MAX && (target == Pending || target == Disabled)
    requires at == WithSlot(s, n, m, Ready(s.nodes[n].slots[m], r))
                     .(coordinators := s.coordinators[(m, r) := Coordinator(a, n, target, Phase.Ready)])
    ensures var act, row := OnInvalidation(ACommit(m, r, Committed)), Invalidated(s.tables.machines[m], target);
            Enabled(at, act)
            && Step(at, act) == at.(tables := WithMachine(s.tables, m, row),
                                    coordinators := s.coordinators[(m, r) := Coordinator(a, n, target, Decided(true))])
  {
    var row := s.tables.machines[m];
    RowIsInvalidated(row, n, r, target, OwnerCurrent(s.tables, row, s.nodes[a].config, s.now));
    hide DoInvalidate, WellFormed, Names;
    var c := Coordinator(a, n, target, Phase.Ready);
    assert at.nodes[a].lease == s.nodes[a].lease && at.nodes[a].config == s.nodes[a].config;
    assert at.nodes[a].boot == s.nodes[a].boot;
    assert ValidServing(at, a);
    assert s.coordinators[(m, r) := c][(m, r) := c.(phase := Decided(true))]
           == s.coordinators[(m, r) := c.(phase := Decided(true))];
  }

  lemma FinishStep(at: State, n: Incarnation, m: MachineId)
    requires AtPrepared(at, n, m) && DecidedAs(at, n, m, true)
    ensures var act := OnInvalidation(AFinishCommitted(n, m));
            Enabled(at, act) && Step(at, act) == Finish(at, n, m)
  {
  }

  // ---- The whole run ----

  /** What a dispatching node's slot looks like. */
  lemma OwningFacts(states: seq<State>, actions: seq<Action>, n: Incarnation, m: MachineId, r: Route)
    requires IsRun(states, actions) && Owning(states[|states| - 1], n, m, r)
    ensures var s := states[|states| - 1];
            var slot := s.nodes[n].slots[m];
            CheckOk(s.nodes[n]) && slot.entry.pending == slot.claims.Keys && r in slot.live
            && slot.live[r] == Tunnel(true, TunnelStage.Serving)
            && (forall c :: c in slot.claims ==> !slot.claims[c].Claimed?)
            && m in s.tables.machines && Names(s.tables.machines[m], n, r) && WellFormed(s.tables.machines[m])
            && (m, r) !in s.coordinators
  {
    var i, s := |states| - 1, states[|states| - 1];
    Theorems.DispatcherIsOwner(states, actions, i, n, m, r);
    Theorems.RowsAreWellFormed(states, actions, i, m);
    Theorems.RunHolds(states, actions, i);
    RunBound(states, actions, i);
    NotCoordinated(s, n, m, r);
    Ownership.SlotFacts(s, n, m);
    assert NodeOk(n, s.nodes[n], s.tables, s.now) by {
      hide SlotsOk, CoordinatorsOk, TablesOk, NodeOk;
    }
    hide Inv, AllBound, IsRun, NodeOk;
    OwningSlot(s, n, m, r);
  }

  lemma OwningSlot(s: State, n: Incarnation, m: MachineId, r: Route)
    requires Owning(s, n, m, r) && m in s.tables.machines
    requires SlotOk(n, s.nodes[n], s.now, s.nodes[n].slots[m], s.tables.machines[m])
    requires NodeOk(n, s.nodes[n], s.tables, s.now)
    ensures var slot := s.nodes[n].slots[m];
            slot.entry.pending == slot.claims.Keys && r in slot.live
            && slot.live[r] == Tunnel(true, TunnelStage.Serving)
            && forall c :: c in slot.claims ==> !slot.claims[c].Claimed?
  {
    var slot, row := s.nodes[n].slots[m], s.tables.machines[m];
    Membership.CheckMeansAuthority(n, s.nodes[n], s.tables, s.now);
    hide NodeOk;
    assert r in slot.live && slot.live[r].stage == TunnelStage.Serving;
    assert Holds(slot, r);
    assert Names(row, n, r);
    forall c | c in slot.claims ensures !slot.claims[c].Claimed? {
      assert slot.claims[c].Claimed? ==> Certain(slot, c) && Holds(slot, slot.claims[c].route);
    }
  }

  /** The coordinator's half, from a prepared transition to its committed end. */
  lemma CoordinatorCommits(states: seq<State>, actions: seq<Action>, s: State, n: Incarnation, m: MachineId, r: Route,
                           a: Incarnation, target: Lifecycle)
    returns (more: seq<State>, acts: seq<Action>)
    requires InSlot(s, n, m) && EndsIn(states, actions, WithSlot(s, n, m, Ready(s.nodes[n].slots[m], r)))
    requires ValidServing(s, a) && (m, r) !in s.coordinators && m in s.tables.machines
    requires WellFormed(s.tables.machines[m]) && Names(s.tables.machines[m], n, r)
    requires s.tables.machines[m].revision < I64_MAX && (target == Pending || target == Disabled)
    ensures EndsIn(more, acts, Completed(s, n, m, r, a, target)) && states <= more && actions <= acts
  {
    AServesHere(s, a);
    var at := WithSlot(s, n, m, Ready(s.nodes[n].slots[m], r));
    var at2 := at.(coordinators := s.coordinators[(m, r) := Coordinator(a, n, target, Phase.Ready)]);
    var at3 := CommittedAt(s, n, m, r, a, target);
    CoordinateStep(s, at, a, n, m, r, target);
    CommitStep(s, at2, a, n, m, r, target);
    DecidedFacts(s, n, m, r, a, target);
    FinishStep(at3, n, m);
    hide Enabled, Step, EndsIn, ValidServing, WithSlot, Ready, Finish, WellFormed, Names;
    var m2, a2 := Then(states, actions, at, OnInvalidation(ACoordinate(a, n, m, target)), at2);
    var m3, a3 := Then(m2, a2, at2, OnInvalidation(ACommit(m, r, Committed)), at3);
    more, acts := Then(m3, a3, at3, OnInvalidation(AFinishCommitted(n, m)), Completed(s, n, m, r, a, target));
  }

  /** The invalidation has committed, and its owner still holds the prepared transition. */
  function CommittedAt(s: State, n: Incarnation, m: MachineId, r: Route, a: Incarnation, target: Lifecycle): State
    requires InSlot(s, n, m) && m in s.tables.machines
  {
    WithSlot(s, n, m, Ready(s.nodes[n].slots[m], r))
      .(tables := WithMachine(s.tables, m, Invalidated(s.tables.machines[m], target)),
        coordinators := s.coordinators[(m, r) := Coordinator(a, n, target, Decided(true))])
  }

  lemma DecidedFacts(s: State, n: Incarnation, m: MachineId, r: Route, a: Incarnation, target: Lifecycle)
    requires InSlot(s, n, m) && m in s.tables.machines
    ensures var at := CommittedAt(s, n, m, r, a, target); AtPrepared(at, n, m) && DecidedAs(at, n, m, true)
  {
  }

  function Completed(s: State, n: Incarnation, m: MachineId, r: Route, a: Incarnation, target: Lifecycle): State
    requires InSlot(s, n, m) && m in s.tables.machines
  {
    DecidedFacts(s, n, m, r, a, target);
    Finish(CommittedAt(s, n, m, r, a, target), n, m)
  }

  lemma CompletedFacts(s: State, n: Incarnation, m: MachineId, r: Route, a: Incarnation, target: Lifecycle)
    requires InSlot(s, n, m) && m in s.tables.machines
    ensures var end := Completed(s, n, m, r, a, target);
            m in end.tables.machines && end.tables.machines[m] == Invalidated(s.tables.machines[m], target)
            && InSlot(end, n, m) && end.nodes[n].lease == s.nodes[n].lease
            && end.nodes[n].slots[m].entry == R.NO_ENTRY && end.nodes[n].slots[m].transition.Idle?
            && r !in end.nodes[n].slots[m].live && r in end.nodes[n].slots[m].ended
  {
  }

  /**
    From every reachable state in which node `n` dispatches over tunnel `r`, whatever claims are
    pending, and any serving node `a`, a run commits the invalidation: the row has the requested
    lifecycle, the next revision and no owner, and the owner has let go of the route without fencing.
   */
  lemma InvalidationCompletes(states: seq<State>, actions: seq<Action>, n: Incarnation, m: MachineId, r: Route,
                              a: Incarnation, target: Lifecycle)
    returns (more: seq<State>, acts: seq<Action>)
    requires IsRun(states, actions) && Owning(states[|states| - 1], n, m, r) && ValidServing(states[|states| - 1], a)
    requires Refusable(states[|states| - 1].nodes[n].slots[m]) && (target == Pending || target == Disabled)
    requires m in states[|states| - 1].tables.machines && states[|states| - 1].tables.machines[m].revision < I64_MAX
    ensures IsRun(more, acts) && states <= more && actions <= acts
    ensures var s, end := states[|states| - 1], more[|more| - 1];
            m in end.tables.machines && end.tables.machines[m] == Invalidated(s.tables.machines[m], target)
            && InSlot(end, n, m) && end.nodes[n].lease == s.nodes[n].lease
            && end.nodes[n].slots[m].entry == R.NO_ENTRY && end.nodes[n].slots[m].transition.Idle?
            && r !in end.nodes[n].slots[m].live && r in end.nodes[n].slots[m].ended
  {
    var s := states[|states| - 1];
    OwningFacts(states, actions, n, m, r);
    assert EndsIn(states, actions, s);
    assert Startable(s.nodes[n].slots[m], r);
    hide ValidServing, WithSlot, Ready, Completed, Theorems.CanDispatch, Invalidated, WellFormed, Names, Refusable;
    CompletedFacts(s, n, m, r, a, target);
    var m1, a1 := OwnerPrepares(states, actions, s, n, m, r);
    more, acts := CoordinatorCommits(m1, a1, s, n, m, r, a, target);
    assert EndsIn(more, acts, Completed(s, n, m, r, a, target));
  }

  lemma AServesHere(s: State, a: Incarnation)
    requires ValidServing(s, a)
    ensures a in s.nodes
  {
  }

  /** A claim whose commit or withdrawal was left undecided fences its node when it is settled. */
  predicate Doomed(stage: ClaimStage)
  {
    stage.Unsure? || stage.Withdrawn? || stage.WithdrawUnsure?
  }

  /** With such a claim pending, a run ends the transition with its owner fenced. */
  lemma InvalidationFences(states: seq<State>, actions: seq<Action>, n: Incarnation, m: MachineId, r: Route,
                           c: Connection)
    returns (more: seq<State>, acts: seq<Action>)
    requires IsRun(states, actions) && Owning(states[|states| - 1], n, m, r)
    requires AtClaim(states[|states| - 1], n, m, c) && Doomed(states[|states| - 1].nodes[n].slots[m].claims[c])
    ensures IsRun(more, acts) && states <= more && actions <= acts
    ensures var end := more[|more| - 1];
            InSlot(end, n, m) && end.nodes[n].lease.fenced && r in end.nodes[n].slots[m].ended
  {
    var s := states[|states| - 1];
    var begin := OnInvalidation(ABeginTransition(n, m, r));
    TransitionBegins(s, n, m, r);
    var s1 := Step(s, begin);
    var settle := Settling(s, n, m, c);
    FenceSteps(s, n, m, r, c);
    var s2 := Step(s1, settle);
    FenceAbandons(s2, n, m, r);
    var abandon := OnInvalidation(AAbandon(n, m));
    var s3 := Step(s2, abandon);
    hide Enabled, Step, IsRun;
    assert EndsIn(states, actions, s);
    var m1, a1 := Then(states, actions, s, begin, s1);
    var m2, a2 := Then(m1, a1, s1, settle, s2);
    more, acts := Then(m2, a2, s2, abandon, s3);
  }

  /** How an undecided claim ends when the node's fence decides it. */
  function Settling(s: State, n: Incarnation, m: MachineId, c: Connection): Action
    requires AtClaim(s, n, m, c)
  {
    OnOwnership(if s.nodes[n].slots[m].claims[c].Unsure? then AClaimLearn(n, m, c) else AWithdrawFails(n, m, c))
  }

  lemma FenceSteps(s: State, n: Incarnation, m: MachineId, r: Route, c: Connection)
    requires BeginTransitionOk(s, n, m, r) && AtClaim(s, n, m, c) && Doomed(s.nodes[n].slots[m].claims[c])
    ensures var s1 := Step(s, OnInvalidation(ABeginTransition(n, m, r)));
            Enabled(s1, Settling(s, n, m, c)) && Transits(Step(s1, Settling(s, n, m, c)), n, m, r)
  {
  }

  predicate Transits(s: State, n: Incarnation, m: MachineId, r: Route)
  {
    InSlot(s, n, m) && !s.nodes[n].slots[m].transition.Idle? && s.nodes[n].slots[m].transition.route == r
  }

  lemma FenceAbandons(s: State, n: Incarnation, m: MachineId, r: Route)
    requires Transits(s, n, m, r)
    ensures Enabled(s, OnInvalidation(AAbandon(n, m)))
    ensures var end := Step(s, OnInvalidation(AAbandon(n, m)));
            InSlot(end, n, m) && end.nodes[n].lease.fenced && r in end.nodes[n].slots[m].ended
  {
  }

  /** So whatever claims are pending, either all can be given up or one of them fences the owner. */
  lemma ClaimsAreRefusableOrDoomed(states: seq<State>, actions: seq<Action>, n: Incarnation, m: MachineId, r: Route)
    requires IsRun(states, actions) && Owning(states[|states| - 1], n, m, r)
    ensures var slot := states[|states| - 1].nodes[n].slots[m];
            !Refusable(slot) <==> exists c :: c in slot.claims && Doomed(slot.claims[c])
  {
    OwningFacts(states, actions, n, m, r);
  }

  // ---- A concrete run ----

  /** Two connections of Machine 1 are reserved before either is claimed. */
  lemma TwoReserved() returns (states: seq<State>, actions: seq<Action>)
    ensures IsRun(states, actions)
    ensures var s := states[|states| - 1];
            s.tables == Tables(Witness.CONFIG, map[7 := NodeRow(false, 1, 1, 30)], map[1 := Witness.ENROLLED])
            && s.pending == None && s.now == 0 && 7 in s.nodes
            && s.nodes[7] == Witness.NODE.(slots := s.nodes[7].slots)
            && StageOk(s, 7, 1, 9, {Reserved}) && StageOk(s, 7, 1, 11, {Reserved})
            && s.nodes[7].slots[1].claims.Keys == {9, 11} && s.nodes[7].slots[1].entry == R.Entry(None, {9, 11}, None)
  {
    states, actions := Witness.Reserved();
    var s := states[|states| - 1];
    var a := OnOwnership(AReserve(7, 1, 11));
    assert Enabled(s, a);
    Witness.Extend(states, actions, a);
    states, actions := states + [Step(s, a)], actions + [a];
  }

  lemma OneClaimed() returns (states: seq<State>, actions: seq<Action>)
    ensures IsRun(states, actions)
    ensures var s := states[|states| - 1];
            7 in s.nodes && s.nodes[7] == Witness.NODE.(slots := s.nodes[7].slots) && ValidServing(s, 7)
            && 1 in s.tables.machines && s.tables.machines[1].revision == 1
            && AtClaimed(s, 7, 1, 9) && s.nodes[7].slots[1].claims[9] == Claimed(Route(1, 1, 9))
            && StageOk(s, 7, 1, 11, {Reserved}) && s.nodes[7].slots[1].claims.Keys == {9, 11}
            && s.nodes[7].slots[1].entry == R.Entry(None, {9, 11}, None)
  {
    states, actions := TwoReserved();
    var s := states[|states| - 1];
    var a := OnOwnership(AClaim(7, 1, 9, 1, Committed));
    assert BoundAt(Witness.ENROLLED, 1) by { assert 6 in Witness.ENROLLED.bindings; }
    assert Enabled(s, a);
    Witness.Extend(states, actions, a);
    states, actions := states + [Step(s, a)], actions + [a];
  }

  lemma SecondClaimPending() returns (states: seq<State>, actions: seq<Action>)
    ensures IsRun(states, actions)
    ensures var s := states[|states| - 1];
            Owning(s, 7, 1, Route(1, 1, 9)) && ValidServing(s, 7) && 11 in s.nodes[7].slots[1].entry.pending
            && Refusable(s.nodes[7].slots[1]) && 1 in s.tables.machines && s.tables.machines[1].revision == 1
  {
    states, actions := OneClaimed();
    var s := states[|states| - 1];
    var a := OnOwnership(AInstallTunnel(7, 1, 9));
    assert Enabled(s, a);
    Witness.Extend(states, actions, a);
    states, actions := states + [Step(s, a)], actions + [a];
  }

  /** Machine 1 is disabled while a second connection's claim is pending. */
  lemma MachineIsDisabled() returns (states: seq<State>, actions: seq<Action>)
    ensures IsRun(states, actions)
    ensures var s := states[|states| - 1];
            1 in s.tables.machines && s.tables.machines[1].lifecycle == Disabled && s.tables.machines[1].revision == 2
            && s.tables.machines[1].owner == None && 7 in s.nodes && !s.nodes[7].lease.fenced
  {
    states, actions := SecondClaimPending();
    OwningFacts(states, actions, 7, 1, Route(1, 1, 9));
    states, actions := InvalidationCompletes(states, actions, 7, 1, Route(1, 1, 9), 7, Disabled);
  }
}
