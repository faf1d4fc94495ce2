/**
  The durable rows of one Machine and the transactions over them. Every transaction locks
  the single deployment row first, so each is one atomic step; `None` is a refusal that
  leaves the rows as they were.
 */
module Durable {
  import opened Common

  datatype Lifecycle = Pending | Verifying | Active | Disabled

  datatype TokenStatus = Issued | Consumed | Cancelled
  datatype Token = Token(status: TokenStatus, expires: int)

  datatype AttemptStatus = Open | Activated | Failed
  datatype Attempt = Attempt(executor: Incarnation, revision: int, status: AttemptStatus, deadline: int)

  datatype Binding = Binding(relay: Uuid, revision: int, active: bool)

  datatype Owner = Owner(incarnation: Incarnation, connection: Connection)

  /** A Machine with its owner row, enrollment tokens, verification attempts and Relay bindings. */
  datatype MachineRow = MachineRow(
    lifecycle: Lifecycle,
    revision: int,
    hostKey: Option<Uuid>,
    tokens: map<Uuid, Token>,
    attempts: map<Uuid, Attempt>,
    bindings: map<Uuid, Binding>,
    ownerRevision: int,
    epoch: int,
    owner: Option<Owner>)

  const ATTEMPT_SECONDS := 120
  const TOKEN_SECONDS := 900

  /** What an invalidation expects to find in the owner row. */
  datatype Expectation =
    | Exact(incarnation: Incarnation, route: Route)
    | NoValidOwner(revision: int)
  {
    function Revision(): int
    {
      match this
      case Exact(_, route) => route.revision
      case NoValidOwner(r) => r
    }
  }

  datatype Transaction =
    | IssueToken(token: Uuid, now: int)
    | CancelToken
    | AcceptToken(token: Uuid, attempt: Uuid, executor: Incarnation, now: int)
    /** `evidence`: active credential, Ed25519 host key and a Relay identity not in use elsewhere. */
    | Activate(attempt: Uuid, executor: Incarnation, revision: int, binding: Uuid, relay: Uuid, key: Uuid,
               evidence: bool, now: int)
    | FailAttempt(attempt: Uuid, revision: int)
    | RecoverAttempt(attempt: Uuid, now: int)
    | Claim(node: Incarnation, connection: Connection, revision: int, ownerValid: bool)
    | Release(node: Incarnation, connection: Connection, epoch: int)
    | Invalidate(target: Lifecycle, expected: Expectation, ownerValid: bool)
    | ReEnroll

  /** The database time a transaction reads, if it reads any. */
  function TimeOf(op: Transaction): Option<int>
  {
    match op
    case IssueToken(_, now) => Some(now)
    case AcceptToken(_, _, _, now) => Some(now)
    case Activate(_, _, _, _, _, _, _, now) => Some(now)
    case RecoverAttempt(_, now) => Some(now)
    case _ => None
  }

  predicate IsIssued(m: MachineRow, t: Uuid)
  {
    t in m.tokens && m.tokens[t].status == Issued
  }

  predicate IsOpen(m: MachineRow, a: Uuid)
  {
    a in m.attempts && m.attempts[a].status == Open
  }

  predicate IsActive(m: MachineRow, b: Uuid)
  {
    b in m.bindings && m.bindings[b].active
  }

  predicate BoundAt(m: MachineRow, revision: int)
  {
    exists b :: b in m.bindings && m.bindings[b].active && m.bindings[b].revision == revision
  }

  function Created(token: Uuid, now: int): MachineRow
  {
    MachineRow(Pending, 1, None, map[token := Token(Issued, now + TOKEN_SECONDS)], map[], map[], 1, 0, None)
  }

  function CancelIssued(tokens: map<Uuid, Token>): map<Uuid, Token>
  {
    map t | t in tokens :: if tokens[t].status == Issued then tokens[t].(status := Cancelled) else tokens[t]
  }

  function FailOpen(attempts: map<Uuid, Attempt>): map<Uuid, Attempt>
  {
    map a | a in attempts :: if attempts[a].status == Open then attempts[a].(status := Failed) else attempts[a]
  }

  function RevokeAt(bindings: map<Uuid, Binding>, revision: int): map<Uuid, Binding>
  {
    map b | b in bindings ::
      if bindings[b].active && bindings[b].revision == revision then bindings[b].(active := false) else bindings[b]
  }

  function Issue(m: MachineRow, token: Uuid, now: int): Option<MachineRow>
  {
    if m.lifecycle != Pending || token in m.tokens then None
    else Some(m.(tokens := CancelIssued(m.tokens)[token := Token(Issued, now + TOKEN_SECONDS)]))
  }

  function Cancel(m: MachineRow): Option<MachineRow>
  {
    if !exists t :: t in m.tokens && m.tokens[t].status == Issued then None
    else Some(m.(tokens := CancelIssued(m.tokens)))
  }

  function Accept(m: MachineRow, token: Uuid, attempt: Uuid, executor: Incarnation, now: int): Option<MachineRow>
  {
    if !IsIssued(m, token) || m.tokens[token].expires <= now || m.lifecycle != Pending || attempt in m.attempts
    then None
    else Some(m.(lifecycle := Verifying,
                 tokens := m.tokens[token := m.tokens[token].(status := Consumed)],
                 attempts := m.attempts[attempt := Attempt(executor, m.revision, Open, now + ATTEMPT_SECONDS)]))
  }

  function DoActivate(m: MachineRow, op: Transaction): Option<MachineRow>
    requires op.Activate?
  {
    if !(&& IsOpen(m, op.attempt)
         && m.attempts[op.attempt].deadline > op.now
         && m.attempts[op.attempt].executor == op.executor
         && m.attempts[op.attempt].revision == m.revision
         && m.revision == op.revision
         && m.lifecycle == Verifying
         && op.evidence
         && (m.hostKey == None || m.hostKey == Some(op.key))
         && op.binding !in m.bindings
         && !(exists b :: b in m.bindings && m.bindings[b].active))
    then None
    else Some(m.(hostKey := Some(op.key),
                 bindings := m.bindings[op.binding := Binding(op.relay, op.revision, true)],
                 attempts := m.attempts[op.attempt := m.attempts[op.attempt].(status := Activated)]))
  }

  function FailOne(m: MachineRow, attempt: Uuid, backToPending: bool): MachineRow
    requires IsOpen(m, attempt)
  {
    var failed := m.(attempts := m.attempts[attempt := m.attempts[attempt].(status := Failed)]);
    if backToPending && m.lifecycle == Verifying then failed.(lifecycle := Pending) else failed
  }

  function Fail(m: MachineRow, attempt: Uuid, revision: int): MachineRow
  {
    if IsOpen(m, attempt) then FailOne(m, attempt, m.revision == revision) else m
  }

  function Recover(m: MachineRow, attempt: Uuid, now: int): MachineRow
  {
    if IsOpen(m, attempt) && m.attempts[attempt].deadline <= now then
      var revision := m.attempts[attempt].revision;
      FailOne(m, attempt, m.revision == revision && !BoundAt(m, revision))
    else m
  }

  function DoClaim(m: MachineRow, node: Incarnation, connection: Connection, revision: int, ownerValid: bool)
    : Option<MachineRow>
  {
    if !(&& m.ownerRevision == revision
         && (m.lifecycle == Verifying || m.lifecycle == Active)
         && m.hostKey.Some?
         && m.revision == revision
         && BoundAt(m, revision)
         && !(m.owner.Some? && ownerValid)
         && m.epoch < I64_MAX)
    then None
    else Some(m.(lifecycle := Active, epoch := m.epoch + 1, owner := Some(Owner(node, connection))))
  }

  function DoRelease(m: MachineRow, node: Incarnation, connection: Connection, epoch: int): Option<MachineRow>
  {
    if m.owner == Some(Owner(node, connection)) && m.epoch == epoch then Some(m.(owner := None)) else None
  }

  /** `ownerValid`: the recorded owner has a node row with an unexpired lease. */
  predicate OwnerMatches(m: MachineRow, expected: Expectation, ownerValid: bool)
  {
    match expected
    case Exact(n, route) => m.owner == Some(Owner(n, route.connection)) && m.epoch == route.epoch
    case NoValidOwner(_) => !(m.owner.Some? && ownerValid)
  }

  function DoInvalidate(m: MachineRow, target: Lifecycle, expected: Expectation, ownerValid: bool): Option<MachineRow>
  {
    if !(&& (target == Pending || target == Disabled)
         && m.lifecycle == Active
         && m.revision == expected.Revision()
         && m.ownerRevision == m.revision
         && OwnerMatches(m, expected, ownerValid)
         && m.revision < I64_MAX
         && BoundAt(m, m.revision))
    then None
    else Some(m.(lifecycle := target,
                 revision := m.revision + 1,
                 tokens := CancelIssued(m.tokens),
                 attempts := FailOpen(m.attempts),
                 bindings := RevokeAt(m.bindings, m.revision),
                 ownerRevision := m.revision + 1,
                 owner := None))
  }

  function Apply(m: MachineRow, op: Transaction): Option<MachineRow>
  {
    match op
    case IssueToken(token, now) => Issue(m, token, now)
    case CancelToken => Cancel(m)
    case AcceptToken(token, attempt, executor, now) => Accept(m, token, attempt, executor, now)
    case Activate(_, _, _, _, _, _, _, _) => DoActivate(m, op)
    case FailAttempt(attempt, revision) => Some(Fail(m, attempt, revision))
    case RecoverAttempt(attempt, now) => Some(Recover(m, attempt, now))
    case Claim(node, connection, revision, ownerValid) => DoClaim(m, node, connection, revision, ownerValid)
    case Release(node, connection, epoch) => DoRelease(m, node, connection, epoch)
    case Invalidate(target, expected, ownerValid) => DoInvalidate(m, target, expected, ownerValid)
    case ReEnroll => if m.lifecycle == Disabled then Some(m.(lifecycle := Pending)) else None
  }

  /** The rows after `op`, whether it committed or was refused. */
  function After(m: MachineRow, op: Transaction): MachineRow
  {
    match Apply(m, op) case Some(next) => next case None => m
  }

  function Run(m: MachineRow, ops: seq<Transaction>): MachineRow
    decreases |ops|
  {
    if ops == [] then m else Run(After(m, ops[0]), ops[1..])
  }

  ghost predicate TokensOk(m: MachineRow)
  {
    && (forall t, u :: IsIssued(m, t) && IsIssued(m, u) ==> t == u)
    && (forall t :: IsIssued(m, t) ==> m.lifecycle == Pending)
  }

  ghost predicate AttemptsOk(m: MachineRow)
  {
    && (forall a, b :: IsOpen(m, a) && IsOpen(m, b) ==> a == b)
    && (forall a :: IsOpen(m, a) ==> m.lifecycle == Verifying && m.attempts[a].revision == m.revision)
    && (forall a, b :: IsOpen(m, a) ==> !IsActive(m, b))
  }

  ghost predicate BindingsOk(m: MachineRow)
  {
    && (forall b, c :: IsActive(m, b) && IsActive(m, c) ==> b == c)
    && (forall b :: IsActive(m, b) ==>
          && (m.lifecycle == Verifying || m.lifecycle == Active)
          && m.bindings[b].revision == m.revision
          && m.hostKey.Some?)
  }

  ghost predicate OwnerOk(m: MachineRow)
  {
    && m.ownerRevision == m.revision
    && 1 <= m.revision <= I64_MAX
    && 0 <= m.epoch <= I64_MAX
    && (m.owner.Some? ==> m.lifecycle == Active && m.epoch > 0)
  }

  /** The durable enrollment invariant. */
  ghost predicate WellFormed(m: MachineRow)
  {
    && TokensOk(m)
    && AttemptsOk(m)
    && BindingsOk(m)
    && OwnerOk(m)
    && (m.lifecycle == Verifying ==> (exists a :: IsOpen(m, a)) || (exists b :: IsActive(m, b)))
    && (m.lifecycle == Active ==> exists b :: IsActive(m, b))
  }

  /** One transaction moves revisions and epochs forward and never repins a host key. */
  ghost predicate Forward(m: MachineRow, next: MachineRow)
  {
    && m.revision <= next.revision
    && m.ownerRevision <= next.ownerRevision
    && m.epoch <= next.epoch
    && (m.hostKey.Some? ==> next.hostKey == m.hostKey)
    && (next.epoch == m.epoch ==> next.owner == m.owner || next.owner == None)
    && (next.owner.Some? ==> next.ownerRevision == m.ownerRevision)
  }
}
