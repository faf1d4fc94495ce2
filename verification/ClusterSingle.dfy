/** The single-node profile: however leases expire and renewals race, only one node serves. */
module ClusterSingle {
  import opened Common
  import opened Lease
  import opened Durable
  import opened Cluster
  import opened ClusterInvariant
  import Theorems = ClusterTheorems

  /** The node's check may pass now, or may once its granted registration is installed. */
  predicate Contender(node: Node, now: int)
  {
    && !node.lease.fenced
    && if node.lease.deadline != 0 then now < node.floor + node.lease.deadline + node.margin
       else node.renewal.Granted? && now < node.floor + node.renewal.before + node.ttl
  }

  predicate Contends(s: State, t: Tables, n: Incarnation)
  {
    n in s.nodes && n in t.nodes && Contender(s.nodes[n], s.now)
  }

  /** Under the single-node profile at most one node with a row in `t` is a contender. */
  ghost predicate Alone(s: State, t: Tables)
  {
    t.config.singleNode ==>
      forall a, b :: Contends(s, t, a) && Contends(s, t, b) ==> a == b
  }

  /** Only installed leases are renewed. */
  ghost predicate Renewable(s: State)
  {
    forall n :: n in s.nodes && s.nodes[n].renewal.Renewing? ==> s.nodes[n].lease.deadline != 0
  }

  ghost predicate Single(s: State)
  {
    Renewable(s) && Alone(s, s.tables) && (s.pending.Some? ==> Alone(s, s.pending.value))
  }

  // ---- Steps without a new contender ----

  /** A step in which no node becomes a contender. */
  ghost predicate Calm(s: State, s': State)
  {
    forall n :: n in s'.nodes && Contender(s'.nodes[n], s'.now) ==> n in s.nodes && Contender(s.nodes[n], s.now)
  }

  lemma CalmKeepsAlone(s: State, s': State, t: Tables, t': Tables)
    requires Alone(s, t) && Calm(s, s') && t'.nodes.Keys <= t.nodes.Keys && t'.config == t.config
    ensures Alone(s', t')
  {
    hide Contender;
    forall n | Contends(s', t', n) ensures Contends(s, t, n) {
      assert n in t'.nodes.Keys;
    }
  }

  /** Node rows and configuration are those of the tables before. */
  predicate SameNodes(t: Tables, t': Tables)
  {
    t'.nodes == t.nodes && t'.config == t.config
  }

  /** Leases may be fenced, and rows of Machines written. */
  ghost predicate Steady(s: State, s': State)
  {
    && s'.now == s.now && s'.nodes.Keys == s.nodes.Keys
    && (forall n :: n in s.nodes ==>
          && s'.nodes[n].floor == s.nodes[n].floor && s'.nodes[n].margin == s.nodes[n].margin
          && s'.nodes[n].ttl == s.nodes[n].ttl && s'.nodes[n].renewal == s.nodes[n].renewal
          && (s'.nodes[n].lease == s.nodes[n].lease || s'.nodes[n].lease == Fence(s.nodes[n].lease)))
    && SameNodes(s.tables, s'.tables)
    && (s'.pending == s.pending || (s'.pending.Some? && SameNodes(s.tables, s'.pending.value)))
  }

  lemma SteadyKeeps(s: State, s': State)
    requires Single(s) && Steady(s, s')
    ensures Single(s')
  {
    forall n | n in s'.nodes ensures n in s.nodes {
      assert n in s'.nodes.Keys;
    }
    assert Calm(s, s');
    hide Steady, Alone, Contender, Calm;
    CalmKeepsAlone(s, s', s.tables, s'.tables);
    if s'.pending.Some? {
      CalmKeepsAlone(s, s', if s'.pending == s.pending then s.pending.value else s.tables, s'.pending.value);
    }
  }

  lemma EnrollmentIsSteady(s: State, a: EnrollmentAction)
    requires EnrollmentEnabled(s, a)
    ensures Steady(s, EnrollmentStep(s, a))
  {
    hide ValidServing, Apply, DoInvalidate;
  }

  /** What a step does to one node's slots leaves its lease alone or fences it. */
  predicate OnlySlots(s: State, s': State, n: Incarnation)
  {
    && n in s.nodes && n in s'.nodes && s'.now == s.now && s'.nodes == s.nodes[n := s'.nodes[n]]
    && (s'.nodes[n] == s.nodes[n].(slots := s'.nodes[n].slots)
        || s'.nodes[n] == s.nodes[n].(slots := s'.nodes[n].slots, lease := Fence(s.nodes[n].lease)))
  }

  lemma OnlySlotsIsSteady(s: State, s': State, n: Incarnation)
    requires OnlySlots(s, s', n) && SameNodes(s.tables, s'.tables)
    requires s'.pending == s.pending || (s'.pending.Some? && SameNodes(s.tables, s'.pending.value))
    ensures Steady(s, s')
  {
  }

  lemma ClaimSideIsSteady(s: State, a: OwnershipAction)
    requires OwnershipEnabled(s, a) && Theorems.ClaimSide(a)
    ensures Steady(s, OwnershipStep(s, a))
  {
    hide Steady, ValidServing, ValidReleasing, DoClaim, DoRelease, IsReady;
    OnlySlotsIsSteady(s, OwnershipStep(s, a), a.n);
  }

  lemma ReleaseSideIsSteady(s: State, a: OwnershipAction)
    requires OwnershipEnabled(s, a) && !Theorems.ClaimSide(a)
    ensures Steady(s, OwnershipStep(s, a))
  {
    hide Steady, ValidServing, ValidReleasing, DoClaim, DoRelease, IsReady;
    OnlySlotsIsSteady(s, OwnershipStep(s, a), a.n);
  }

  lemma OwnershipIsSteady(s: State, a: OwnershipAction)
    requires OwnershipEnabled(s, a)
    ensures Steady(s, OwnershipStep(s, a))
  {
    hide Steady, OwnershipStep, OwnershipEnabled;
    if Theorems.ClaimSide(a) {
      ClaimSideIsSteady(s, a);
    } else {
      ReleaseSideIsSteady(s, a);
    }
  }

  predicate SlotSide(a: InvalidationAction)
  {
    a.ABeginTransition? || a.ATransitionReady? || a.AAbandon? || a.AFinishCommitted? || a.AUndo? || a.AFinishUndone?
  }

  lemma InvalidationIsSteady(s: State, a: InvalidationAction)
    requires InvalidationEnabled(s, a)
    ensures Steady(s, InvalidationStep(s, a))
  {
    hide ValidServing, ValidReleasing, DoInvalidate, DoRelease, IsReady, Observe;
    if SlotSide(a) {
      hide Steady;
      OnlySlotsIsSteady(s, InvalidationStep(s, a), a.n);
    }
  }

  // ---- Membership ----

  /** A contender with a row has an unexpired lease. */
  lemma ContenderIsLeased(n: Incarnation, node: Node, t: Tables, now: int)
    requires NodeOk(n, node, t, now) && Contender(node, now) && n in t.nodes
    ensures Leased(t, n, now)
  {
  }

  lemma NodeFacts(s: State, n: Incarnation)
    requires Inv(s) && n in s.nodes
    ensures NodeOk(n, s.nodes[n], s.tables, s.now)
  {
    hide SlotsOk, CoordinatorsOk, TablesOk, NodeOk;
  }

  lemma NoLeaseNoContender(s: State, n: Incarnation)
    requires Inv(s) && n in s.nodes && n in s.tables.nodes && !Leased(s.tables, n, s.now)
    ensures !Contender(s.nodes[n], s.now)
  {
    NodeFacts(s, n);
    hide Inv, NodeOk, Leased, Contender;
    if Contender(s.nodes[n], s.now) {
      ContenderIsLeased(n, s.nodes[n], s.tables, s.now);
    }
  }

  /** A registration under the single-node profile finds no other contender with a row. */
  lemma RegisterIsAlone(s: State, n: Incarnation, outcome: Outcome)
    requires Inv(s) && Single(s) && RegisterOk(s, n)
    ensures Single(Register(s, n, outcome))
  {
    var s' := Register(s, n, outcome);
    var t' := if outcome == Committed then s'.tables else s'.pending.value;
    NodeFacts(s, n);
    forall a | a in s.nodes && a in s.tables.nodes && s.tables.config.singleNode
      ensures !Contender(s.nodes[a], s.now)
    {
      NoLeaseNoContender(s, a);
    }
    hide Inv;
    assert t'.nodes.Keys == s.tables.nodes.Keys + {n};
    assert Alone(s', t');
    if outcome == Ambiguous {
      assert !Contender(s'.nodes[n], s'.now);
    }
  }

  /** A configuration changes only when nobody contends. */
  lemma ReconfigureIsAlone(s: State, config: Config, outcome: Outcome)
    requires Inv(s) && Single(s) && ReconfigureOk(s, config)
    ensures Single(Submit(s, s.tables.(config := config), outcome))
  {
    forall a | a in s.nodes && a in s.tables.nodes ensures !Contender(s.nodes[a], s.now) {
      NoLeaseNoContender(s, a);
    }
    hide Inv, Contender;
  }

  /** Installing a lease makes no contender: the old deadline or the request bounds the new one. */
  lemma InstallIsCalm(s: State, n: Incarnation, clockReads: bool)
    requires Inv(s) && InstallOk(s, n)
    ensures Calm(s, InstallLease(s, n, clockReads))
  {
    NodeFacts(s, n);
    hide Inv;
  }

  predicate Quieting(a: MembershipAction)
  {
    !a.ARegister? && !a.AReconfigure? && !a.ALand?
  }

  lemma QuietingIsCalm(s: State, a: MembershipAction)
    requires Inv(s) && Renewable(s) && MembershipEnabled(s, a) && Quieting(a)
    ensures Calm(s, MembershipStep(s, a)) && Renewable(MembershipStep(s, a))
  {
    hide Inv, ValidServing;
    if a.AInstallLease? {
      InstallIsCalm(s, a.n, a.clockReads);
      hide Calm, Contender;
    } else if a.ATick? || a.ABoot? {
      TimeIsCalm(s, a);
      hide Calm, Contender;
    } else {
      hide InstallDeadline;
    }
  }

  lemma TimeIsCalm(s: State, a: MembershipAction)
    requires MembershipEnabled(s, a) && (a.ATick? || a.ABoot?)
    ensures Calm(s, MembershipStep(s, a))
  {
  }

  lemma QuietingKeepsRows(s: State, a: MembershipAction)
    requires MembershipEnabled(s, a) && Quieting(a)
    ensures var s' := MembershipStep(s, a);
            && s'.tables.nodes.Keys <= s.tables.nodes.Keys && s'.tables.config == s.tables.config
            && (s'.pending == s.pending
                || (s'.pending.Some? && s'.pending.value.nodes.Keys <= s.tables.nodes.Keys
                    && s'.pending.value.config == s.tables.config))
  {
  }

  lemma MembershipIsSingle(s: State, a: MembershipAction)
    requires Inv(s) && Single(s) && MembershipEnabled(s, a)
    ensures Single(MembershipStep(s, a))
  {
    var s' := MembershipStep(s, a);
    if Quieting(a) {
      QuietingIsCalm(s, a);
      QuietingKeepsRows(s, a);
      hide Inv, MembershipStep, MembershipEnabled, Alone, Calm, Renewable;
      CalmKeepsAlone(s, s', s.tables, s'.tables);
      if s'.pending.Some? {
        CalmKeepsAlone(s, s', if s'.pending == s.pending then s.pending.value else s.tables, s'.pending.value);
      }
    } else {
      hide Inv, Single, Register, RegisterOk, ReconfigureOk;
      match a {
        case ARegister(n, outcome) => RegisterIsAlone(s, n, outcome);
        case AReconfigure(config, outcome) => ReconfigureIsAlone(s, config, outcome);
        case ALand(commit) => LandIsSingle(s, commit);
        case _ =>
      }
    }
  }

  lemma LandIsSingle(s: State, commit: bool)
    requires Single(s) && s.pending.Some?
    ensures Single(s.(tables := if commit then s.pending.value else s.tables, pending := None))
  {
    var t := if commit then s.pending.value else s.tables;
    var s' := s.(tables := t, pending := None);
    assert Calm(s, s');
    CalmKeepsAlone(s, s', t, t);
  }

  // ---- Runs ----

  lemma StepIsSingle(s: State, a: Action)
    requires Inv(s) && Single(s) && Enabled(s, a)
    ensures Single(Step(s, a))
  {
    hide Inv, Single, Steady, MembershipStep, EnrollmentStep, OwnershipStep, InvalidationStep;
    hide MembershipEnabled, EnrollmentEnabled, OwnershipEnabled, InvalidationEnabled;
    match a {
      case OnMembership(x) => MembershipIsSingle(s, x);
      case OnEnrollment(x) => EnrollmentIsSteady(s, x);
      case OnOwnership(x) => OwnershipIsSteady(s, x);
      case OnInvalidation(x) => InvalidationIsSteady(s, x);
    }
    if !a.OnMembership? {
      SteadyKeeps(s, Step(s, a));
    }
  }

  lemma {:induction false} RunIsSingle(states: seq<State>, actions: seq<Action>, i: nat)
    requires IsRun(states, actions) && i < |states|
    ensures Single(states[i])
  {
    if i > 0 {
      Theorems.RunHolds(states, actions, i - 1);
      RunIsSingle(states, actions, i - 1);
      hide Inv, Single, Enabled, Step;
      StepIsSingle(states[i - 1], actions[i - 1]);
    }
  }

  /**
    Under the single-node profile two nodes whose checks pass, neither of which has released its row,
    are the same node, although an expired lease may still be renewed in the database.
   */
  lemma OneNodeServes(states: seq<State>, actions: seq<Action>, i: nat, a: Incarnation, b: Incarnation)
    requires IsRun(states, actions) && i < |states| && states[i].tables.config.singleNode
    requires a in states[i].nodes && a in states[i].tables.nodes && CheckOk(states[i].nodes[a])
    requires b in states[i].nodes && b in states[i].tables.nodes && CheckOk(states[i].nodes[b])
    ensures a == b
  {
    RunIsSingle(states, actions, i);
    Theorems.RunHolds(states, actions, i);
    NodeFacts(states[i], a);
    NodeFacts(states[i], b);
    hide Inv, IsRun;
    assert Contends(states[i], states[i].tables, a) && Contends(states[i], states[i].tables, b);
  }

  /** So only one node dispatches at all, whatever the Machines. */
  lemma OneNodeDispatches(states: seq<State>, actions: seq<Action>, i: nat, a: Incarnation, m: MachineId, r: Route,
                          b: Incarnation, k: MachineId, q: Route)
    requires IsRun(states, actions) && i < |states| && states[i].tables.config.singleNode
    requires Theorems.CanDispatch(states[i], a, m, r) && Theorems.CanDispatch(states[i], b, k, q)
    ensures a == b
  {
    hide IsRun, Holds;
    Theorems.DispatchProvesLease(states, actions, i, a, m, r);
    Theorems.DispatchProvesLease(states, actions, i, b, k, q);
    OneNodeServes(states, actions, i, a, b);
  }
}
