/** Every durable state that the enrollment and lifecycle transactions can reach is well formed. */
module Enrollment {
  import opened Common
  import opened Durable

  lemma IssueKeeps(m: MachineRow, token: Uuid, now: int)
    requires WellFormed(m) && Issue(m, token, now).Some?
    ensures WellFormed(Issue(m, token, now).value)
  {
    var next := Issue(m, token, now).value;
    assert forall t :: IsIssued(next, t) <==> t == token;
    assert forall a :: IsOpen(next, a) <==> IsOpen(m, a);
    assert forall b :: IsActive(next, b) <==> IsActive(m, b);
  }

  lemma CancelKeeps(m: MachineRow)
    requires WellFormed(m) && Cancel(m).Some?
    ensures WellFormed(Cancel(m).value)
  {
    var next := Cancel(m).value;
    assert forall t :: !IsIssued(next, t);
    assert forall a :: IsOpen(next, a) <==> IsOpen(m, a);
    assert forall b :: IsActive(next, b) <==> IsActive(m, b);
  }

  lemma AcceptKeeps(m: MachineRow, token: Uuid, attempt: Uuid, executor: Incarnation, now: int)
    requires WellFormed(m) && Accept(m, token, attempt, executor, now).Some?
    ensures WellFormed(Accept(m, token, attempt, executor, now).value)
  {
    var next := Accept(m, token, attempt, executor, now).value;
    assert forall t :: IsIssued(next, t) ==> IsIssued(m, t) && t != token;
    assert forall a :: IsOpen(next, a) <==> IsOpen(m, a) || a == attempt;
    assert forall b :: IsActive(next, b) <==> IsActive(m, b);
    assert IsOpen(next, attempt);
  }

  lemma ActivateKeeps(m: MachineRow, op: Transaction)
    requires WellFormed(m) && op.Activate? && DoActivate(m, op).Some?
    ensures WellFormed(DoActivate(m, op).value)
  {
    var next := DoActivate(m, op).value;
    assert forall t :: IsIssued(next, t) <==> IsIssued(m, t);
    assert !IsOpen(next, op.attempt);
    assert forall a :: IsOpen(next, a) ==> IsOpen(m, a);
    assert forall b :: IsActive(next, b) ==> IsActive(m, b) || b == op.binding;
    assert IsActive(next, op.binding);
  }

  lemma FailOneKeeps(m: MachineRow, attempt: Uuid)
    requires WellFormed(m) && IsOpen(m, attempt)
    ensures WellFormed(FailOne(m, attempt, true))
  {
    var next := FailOne(m, attempt, true);
    assert forall t :: IsIssued(next, t) <==> IsIssued(m, t);
    assert forall a :: IsOpen(next, a) ==> IsOpen(m, a) && a != attempt;
    assert forall b :: IsActive(next, b) <==> IsActive(m, b);
  }

  lemma FailKeeps(m: MachineRow, attempt: Uuid)
    requires WellFormed(m)
    ensures WellFormed(Fail(m, attempt, m.revision))
  {
    if IsOpen(m, attempt) {
      FailOneKeeps(m, attempt);
    }
  }

  lemma RecoverKeeps(m: MachineRow, attempt: Uuid, now: int)
    requires WellFormed(m)
    ensures WellFormed(Recover(m, attempt, now))
  {
    if IsOpen(m, attempt) {
      assert !BoundAt(m, m.revision) by {
        if b :| b in m.bindings && m.bindings[b].active && m.bindings[b].revision == m.revision {
          assert IsActive(m, b);
        }
      }
      FailOneKeeps(m, attempt);
    }
  }

  lemma ClaimKeeps(m: MachineRow, node: Incarnation, connection: Connection, revision: int, ownerValid: bool)
    requires WellFormed(m) && DoClaim(m, node, connection, revision, ownerValid).Some?
    ensures WellFormed(DoClaim(m, node, connection, revision, ownerValid).value)
  {
    var next := DoClaim(m, node, connection, revision, ownerValid).value;
    var b :| b in m.bindings && m.bindings[b].active && m.bindings[b].revision == revision;
    assert IsActive(m, b) && IsActive(next, b);
    assert forall t :: IsIssued(next, t) <==> IsIssued(m, t);
    assert forall a :: IsOpen(next, a) <==> IsOpen(m, a);
    assert forall c :: IsActive(next, c) <==> IsActive(m, c);
  }

  lemma ReleaseKeeps(m: MachineRow, node: Incarnation, connection: Connection, epoch: int)
    requires WellFormed(m) && DoRelease(m, node, connection, epoch).Some?
    ensures WellFormed(DoRelease(m, node, connection, epoch).value)
  {
    var next := DoRelease(m, node, connection, epoch).value;
    assert forall t :: IsIssued(next, t) <==> IsIssued(m, t);
    assert forall a :: IsOpen(next, a) <==> IsOpen(m, a);
    assert forall c :: IsActive(next, c) <==> IsActive(m, c);
  }

  lemma InvalidateKeeps(m: MachineRow, target: Lifecycle, expected: Expectation, ownerValid: bool)
    requires WellFormed(m) && DoInvalidate(m, target, expected, ownerValid).Some?
    ensures WellFormed(DoInvalidate(m, target, expected, ownerValid).value)
  {
    var next := DoInvalidate(m, target, expected, ownerValid).value;
    assert forall t :: !IsIssued(next, t);
    assert forall a :: !IsOpen(next, a);
    assert forall b :: !IsActive(next, b) by {
      forall b | IsActive(next, b) ensures false {
        assert IsActive(m, b);
      }
    }
  }

  lemma ReEnrollKeeps(m: MachineRow)
    requires WellFormed(m) && m.lifecycle == Disabled
    ensures WellFormed(m.(lifecycle := Pending))
  {
    var next := m.(lifecycle := Pending);
    assert forall t :: IsIssued(next, t) <==> IsIssued(m, t);
    assert forall a :: IsOpen(next, a) <==> IsOpen(m, a);
    assert forall c :: IsActive(next, c) <==> IsActive(m, c);
  }

  /** An enrollment task reports its attempt under the revision that token acceptance returned. */
  ghost predicate Reported(m: MachineRow, op: Transaction)
  {
    op.FailAttempt? && op.attempt in m.attempts ==> op.revision == m.attempts[op.attempt].revision
  }

  lemma StepKeeps(m: MachineRow, op: Transaction)
    requires WellFormed(m) && Reported(m, op)
    ensures WellFormed(After(m, op))
  {
    if Apply(m, op).Some? {
      match op
      case IssueToken(token, now) => IssueKeeps(m, token, now);
      case CancelToken => CancelKeeps(m);
      case AcceptToken(token, attempt, executor, now) => AcceptKeeps(m, token, attempt, executor, now);
      case Activate(_, _, _, _, _, _, _, _) => ActivateKeeps(m, op);
      case FailAttempt(attempt, revision) => FailKeeps(m, attempt);
      case RecoverAttempt(attempt, now) => RecoverKeeps(m, attempt, now);
      case Claim(node, connection, revision, ownerValid) => ClaimKeeps(m, node, connection, revision, ownerValid);
      case Release(node, connection, epoch) => ReleaseKeeps(m, node, connection, epoch);
      case Invalidate(target, expected, ownerValid) => InvalidateKeeps(m, target, expected, ownerValid);
      case ReEnroll => ReEnrollKeeps(m);
    }
  }

  /** Revisions and epochs only grow, a pinned host key is final, and an epoch never changes hands. */
  lemma StepForward(m: MachineRow, op: Transaction)
    requires WellFormed(m)
    ensures Forward(m, After(m, op))
    ensures op.Claim? && Apply(m, op).Some? ==> After(m, op).epoch > m.epoch
    ensures op.Invalidate? && Apply(m, op).Some? ==> After(m, op).revision > m.revision
  {
  }

  ghost predicate AllReported(m: MachineRow, ops: seq<Transaction>)
    decreases |ops|
  {
    ops == [] || (Reported(m, ops[0]) && AllReported(After(m, ops[0]), ops[1..]))
  }

  /** The enrollment invariant holds after every sequence of transactions on a created Machine. */
  lemma {:induction false} RunKeeps(m: MachineRow, ops: seq<Transaction>)
    requires WellFormed(m) && AllReported(m, ops)
    ensures WellFormed(Run(m, ops))
    decreases |ops|
  {
    if ops != [] {
      StepKeeps(m, ops[0]);
      RunKeeps(After(m, ops[0]), ops[1..]);
    }
  }

  lemma ReachableIsWellFormed(token: Uuid, now: int, ops: seq<Transaction>)
    requires AllReported(Created(token, now), ops)
    ensures WellFormed(Run(Created(token, now), ops))
  {
    assert forall t :: IsIssued(Created(token, now), t) <==> t == token;
    RunKeeps(Created(token, now), ops);
  }

  /** Over a whole run nothing goes back, and the host key pinned first is the one that stays. */
  lemma {:induction false} RunForward(m: MachineRow, ops: seq<Transaction>)
    requires WellFormed(m) && AllReported(m, ops)
    ensures m.revision <= Run(m, ops).revision && m.epoch <= Run(m, ops).epoch
    ensures m.hostKey.Some? ==> Run(m, ops).hostKey == m.hostKey
    decreases |ops|
  {
    if ops != [] {
      StepKeeps(m, ops[0]);
      StepForward(m, ops[0]);
      RunForward(After(m, ops[0]), ops[1..]);
    }
  }

  /** A settled attempt is never reopened. */
  lemma {:induction false} SettledStays(m: MachineRow, ops: seq<Transaction>, attempt: Uuid)
    requires attempt in m.attempts && !IsOpen(m, attempt)
    ensures attempt in Run(m, ops).attempts && !IsOpen(Run(m, ops), attempt)
    decreases |ops|
  {
    if ops != [] {
      SettledStays(After(m, ops[0]), ops[1..], attempt);
    }
  }

  /** Once an attempt has settled, a late failure report or recovery of it never changes anything. */
  lemma LateFailureIsInert(m: MachineRow, ops: seq<Transaction>, attempt: Uuid, revision: int, now: int)
    requires attempt in m.attempts && !IsOpen(m, attempt)
    ensures After(Run(m, ops), FailAttempt(attempt, revision)) == Run(m, ops)
    ensures After(Run(m, ops), RecoverAttempt(attempt, now)) == Run(m, ops)
  {
    SettledStays(m, ops, attempt);
  }

  /** A failure report or recovery changes nothing while the Machine is bound or another attempt is open. */
  lemma BoundMachineIgnoresFailure(m: MachineRow, attempt: Uuid, other: Uuid, revision: int, now: int)
    requires WellFormed(m)
    requires IsActive(m, other) || (IsOpen(m, other) && other != attempt)
    ensures After(m, FailAttempt(attempt, revision)) == m
    ensures After(m, RecoverAttempt(attempt, now)) == m
  {
  }

  /**
    On a well-formed row a claim commits exactly when the revision is the current one, some binding is
    active, no valid owner is recorded and the epoch can grow; the claimed tests of lifecycle, host
    key and the binding's revision then hold of themselves.
   */
  lemma ClaimIsExact(m: MachineRow, node: Incarnation, connection: Connection, revision: int, ownerValid: bool)
    requires WellFormed(m)
    ensures Apply(m, Claim(node, connection, revision, ownerValid)).Some? <==>
            && revision == m.revision && (exists b :: IsActive(m, b))
            && (m.owner == None || !ownerValid) && m.epoch < I64_MAX
  {
    if b :| IsActive(m, b) {
      assert m.bindings[b].active && m.bindings[b].revision == m.revision;
    }
    if b :| b in m.bindings && m.bindings[b].active && m.bindings[b].revision == revision {
      assert IsActive(m, b);
    }
  }

  /** Nothing enrolled or issued is left, and nobody owns the Machine. */
  ghost predicate Detached(m: MachineRow)
  {
    m.owner == None && (forall t :: !IsIssued(m, t)) && (forall a :: !IsOpen(m, a)) && (forall b :: !IsActive(m, b))
  }

  /**
    On a well-formed row an invalidation commits exactly when the Machine is active at the expected
    revision and its owner is the expected one; it leaves the Machine detached in the requested
    lifecycle, at the next revision, with its host key and epoch.
   */
  lemma InvalidationIsExact(m: MachineRow, target: Lifecycle, expected: Expectation, ownerValid: bool)
    requires WellFormed(m)
    ensures Apply(m, Invalidate(target, expected, ownerValid)).Some? <==>
            && (target == Pending || target == Disabled) && m.lifecycle == Active
            && m.revision == expected.Revision() && m.revision < I64_MAX
            && match expected {
                 case Exact(n, route) => m.owner == Some(Owner(n, route.connection)) && m.epoch == route.epoch
                 case NoValidOwner(_) => m.owner == None || !ownerValid
               }
    ensures var next := After(m, Invalidate(target, expected, ownerValid));
            next == m
            || (Detached(next) && next.lifecycle == target && next.revision == m.revision + 1
                && next.hostKey == m.hostKey && next.epoch == m.epoch)
  {
    if m.lifecycle == Active {
      var b :| IsActive(m, b);
      assert m.bindings[b].active && m.bindings[b].revision == m.revision;
    }
    var next := After(m, Invalidate(target, expected, ownerValid));
    if DoInvalidate(m, target, expected, ownerValid).Some? {
      forall b ensures !IsActive(next, b) {
        if IsActive(next, b) {
          assert IsActive(m, b);
          assert false;
        }
      }
    }
  }
}
