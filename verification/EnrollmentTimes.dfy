/** When tokens and attempts may be used: every deadline of an enrollment, over whole histories. */
module EnrollmentTimes {
  import opened Common
  import opened Durable
  import Enrollment

  /** A Machine created at time `start` with token `first`, and its rows after each transaction. */
  predicate History(rows: seq<MachineRow>, ops: seq<Transaction>, first: Uuid, start: int)
  {
    |rows| == |ops| + 1 && rows[0] == Created(first, start)
    && forall i :: 0 <= i < |ops| ==> rows[i + 1] == After(rows[i], ops[i])
  }

  predicate Applied(rows: seq<MachineRow>, ops: seq<Transaction>, i: nat)
    requires |rows| == |ops| + 1
  {
    i < |ops| && Apply(rows[i], ops[i]).Some?
  }

  /** Times never go back, and none precedes the creation. */
  predicate InOrder(ops: seq<Transaction>, start: int)
  {
    (forall i :: 0 <= i < |ops| && TimeOf(ops[i]).Some? ==> start <= TimeOf(ops[i]).value)
    && forall i, j :: 0 <= i < j < |ops| && TimeOf(ops[i]).Some? && TimeOf(ops[j]).Some? ==>
         TimeOf(ops[i]).value <= TimeOf(ops[j]).value
  }

  // ---- Tokens ----

  /** Token `u` was issued at time `t` by transaction `i`, or with the Machine when `i` is -1. */
  predicate IssuedBy(rows: seq<MachineRow>, ops: seq<Transaction>, first: Uuid, start: int, i: int, u: Uuid, t: int)
    requires |rows| == |ops| + 1
  {
    if i == -1 then u == first && t == start
    else 0 <= i < |ops| && Applied(rows, ops, i) && ops[i] == IssueToken(u, t)
  }

  /** A cancellation, a reissue, an acceptance or an invalidation took effect. */
  predicate EndsTokens(rows: seq<MachineRow>, ops: seq<Transaction>, k: nat)
    requires |rows| == |ops| + 1
  {
    Applied(rows, ops, k) && (ops[k].CancelToken? || ops[k].IssueToken? || ops[k].AcceptToken? || ops[k].Invalidate?)
  }

  /** The issue stands at point `j`: nothing has ended it since. */
  predicate Stands(rows: seq<MachineRow>, ops: seq<Transaction>, i: int, j: nat)
    requires |rows| == |ops| + 1 && -1 <= i && j <= |ops|
  {
    i < j && forall k: nat :: i < k < j ==> !EndsTokens(rows, ops, k)
  }

  ghost predicate Outstanding(rows: seq<MachineRow>, ops: seq<Transaction>, first: Uuid, start: int, u: Uuid, t: int,
                              j: nat)
    requires |rows| == |ops| + 1 && j <= |ops|
  {
    exists i: int :: -1 <= i && IssuedBy(rows, ops, first, start, i, u, t) && Stands(rows, ops, i, j)
  }

  predicate OneIssued(m: MachineRow)
  {
    forall t, u :: t in m.tokens && u in m.tokens && IsIssued(m, t) && IsIssued(m, u) ==> t == u
  }

  lemma {:induction false} AlwaysOneIssued(rows: seq<MachineRow>, ops: seq<Transaction>, first: Uuid, start: int,
                                           j: nat)
    requires History(rows, ops, first, start) && j <= |ops|
    ensures OneIssued(rows[j])
  {
    if j > 0 {
      AlwaysOneIssued(rows, ops, first, start, j - 1);
      assert rows[j] == After(rows[j - 1], ops[j - 1]);
    }
  }

  /** One transaction's effect on an outstanding token. */
  lemma TokenStep(m: MachineRow, op: Transaction, u: Uuid)
    requires OneIssued(m)
    ensures var next := After(m, op);
            var ends := Apply(m, op).Some? && (op.CancelToken? || op.IssueToken? || op.AcceptToken? || op.Invalidate?);
            (IsIssued(next, u) <==>
             if ends then op.IssueToken? && op.token == u else IsIssued(m, u))
            && (IsIssued(next, u) ==>
                next.tokens[u].expires ==
                if ends && op.IssueToken? then op.now + TOKEN_SECONDS else m.tokens[u].expires)
  {
  }

  /** A token is issued in the rows exactly when an issue of it stands, and expires 900 seconds after that. */
  lemma {:induction false} IssuedIffOutstanding(rows: seq<MachineRow>, ops: seq<Transaction>, first: Uuid, start: int,
                                                u: Uuid, t: int, j: nat)
    requires History(rows, ops, first, start) && j <= |ops|
    ensures IsIssued(rows[j], u) && rows[j].tokens[u].expires == t + TOKEN_SECONDS
            <==> Outstanding(rows, ops, first, start, u, t, j)
  {
    hide After, Apply;
    if j == 0 {
      assert rows[0] == Created(first, start);
      if u == first && t == start {
        assert IssuedBy(rows, ops, first, start, -1, u, t) && Stands(rows, ops, -1, 0);
      }
    } else {
      var p := j - 1;
      IssuedIffOutstanding(rows, ops, first, start, u, t, p);
      AlwaysOneIssued(rows, ops, first, start, p);
      TokenStep(rows[p], ops[p], u);
      assert rows[j] == After(rows[p], ops[p]);
      assert EndsTokens(rows, ops, p) <==>
             (Apply(rows[p], ops[p]).Some?
              && (ops[p].CancelToken? || ops[p].IssueToken? || ops[p].AcceptToken? || ops[p].Invalidate?));
      StandsStep(rows, ops, first, start, u, t, p);
    }
  }

  lemma StandsStep(rows: seq<MachineRow>, ops: seq<Transaction>, first: Uuid, start: int, u: Uuid, t: int, p: nat)
    requires |rows| == |ops| + 1 && p < |ops|
    ensures Outstanding(rows, ops, first, start, u, t, p + 1) <==>
            if EndsTokens(rows, ops, p) then ops[p] == IssueToken(u, t)
            else Outstanding(rows, ops, first, start, u, t, p)
  {
    hide Apply;
    if EndsTokens(rows, ops, p) {
      if ops[p] == IssueToken(u, t) {
        assert IssuedBy(rows, ops, first, start, p, u, t) && Stands(rows, ops, p, p + 1);
      }
    } else if Outstanding(rows, ops, first, start, u, t, p) {
      var i: int :| -1 <= i && IssuedBy(rows, ops, first, start, i, u, t) && Stands(rows, ops, i, p);
      assert Stands(rows, ops, i, p + 1);
    }
    forall i: int | -1 <= i && IssuedBy(rows, ops, first, start, i, u, t) && Stands(rows, ops, i, p + 1)
      ensures i == p || Stands(rows, ops, i, p)
    {
    }
  }

  /**
    A token opens an attempt exactly when the Machine is pending and an issue of the token, less
    than 900 seconds old, has not been cancelled, reissued, accepted or invalidated since.
   */
  lemma AcceptedIffOutstanding(rows: seq<MachineRow>, ops: seq<Transaction>, first: Uuid, start: int, j: nat)
    requires History(rows, ops, first, start) && j < |ops| && ops[j].AcceptToken?
    ensures Applied(rows, ops, j) <==>
            rows[j].lifecycle == Pending && ops[j].attempt !in rows[j].attempts
            && exists t: int ::
                 Outstanding(rows, ops, first, start, ops[j].token, t, j) && ops[j].now < t + TOKEN_SECONDS
  {
    var u := ops[j].token;
    if u in rows[j].tokens {
      IssuedIffOutstanding(rows, ops, first, start, u, rows[j].tokens[u].expires - TOKEN_SECONDS, j);
    }
    forall t: int | Outstanding(rows, ops, first, start, u, t, j)
      ensures IsIssued(rows[j], u) && rows[j].tokens[u].expires == t + TOKEN_SECONDS
    {
      IssuedIffOutstanding(rows, ops, first, start, u, t, j);
    }
  }

  lemma IssueTime(rows: seq<MachineRow>, ops: seq<Transaction>, first: Uuid, start: int, u: Uuid, t: int, j: nat)
    requires History(rows, ops, first, start) && InOrder(ops, start) && j < |ops| && TimeOf(ops[j]).Some?
    requires Outstanding(rows, ops, first, start, u, t, j)
    ensures t <= TimeOf(ops[j]).value
  {
    var i: int :| -1 <= i && IssuedBy(rows, ops, first, start, i, u, t) && Stands(rows, ops, i, j);
    if i >= 0 {
      assert TimeOf(ops[i]) == Some(t);
    }
  }

  /** An attempt is opened only within 900 seconds of the issue of its token. */
  lemma AcceptanceIsTimely(rows: seq<MachineRow>, ops: seq<Transaction>, first: Uuid, start: int, j: nat)
    requires History(rows, ops, first, start) && InOrder(ops, start) && j < |ops| && ops[j].AcceptToken?
    requires Applied(rows, ops, j)
    ensures exists t: int ::
              Outstanding(rows, ops, first, start, ops[j].token, t, j) && ops[j].now - TOKEN_SECONDS < t <= ops[j].now
  {
    AcceptedIffOutstanding(rows, ops, first, start, j);
    var t: int :| Outstanding(rows, ops, first, start, ops[j].token, t, j) && ops[j].now < t + TOKEN_SECONDS;
    IssueTime(rows, ops, first, start, ops[j].token, t, j);
  }

  predicate NoneIssued(m: MachineRow)
  {
    forall u :: u in m.tokens ==> m.tokens[u].status != Issued
  }

  /** A cancellation commits exactly when some token is outstanding, and none is afterwards. */
  lemma CancellationIsExact(rows: seq<MachineRow>, ops: seq<Transaction>, first: Uuid, start: int, j: nat)
    requires History(rows, ops, first, start) && j < |ops| && ops[j].CancelToken?
    ensures Applied(rows, ops, j) <==> exists u: Uuid, t: int :: Outstanding(rows, ops, first, start, u, t, j)
    ensures NoneIssued(rows[j + 1])
  {
    forall u: Uuid, t: int
      ensures Outstanding(rows, ops, first, start, u, t, j) <==>
              IsIssued(rows[j], u) && rows[j].tokens[u].expires == t + TOKEN_SECONDS
    {
      IssuedIffOutstanding(rows, ops, first, start, u, t, j);
    }
    assert rows[j + 1] == After(rows[j], ops[j]);
    if u :| u in rows[j].tokens && IsIssued(rows[j], u) {
      assert Outstanding(rows, ops, first, start, u, rows[j].tokens[u].expires - TOKEN_SECONDS, j);
    }
  }

  /** A token is issued exactly for a pending Machine and a new identity, and is then the outstanding one. */
  lemma IssueIsExact(rows: seq<MachineRow>, ops: seq<Transaction>, first: Uuid, start: int, j: nat, u: Uuid, t: int)
    requires History(rows, ops, first, start) && j < |ops| && ops[j].IssueToken?
    ensures Applied(rows, ops, j) <==> rows[j].lifecycle == Pending && ops[j].token !in rows[j].tokens
    ensures Applied(rows, ops, j) ==>
              (Outstanding(rows, ops, first, start, u, t, j + 1) <==> u == ops[j].token && t == ops[j].now)
  {
    StandsStep(rows, ops, first, start, u, t, j);
  }

  // ---- Attempts ----

  /** Transaction `i` opened attempt `a` for `executor` at time `t`. */
  predicate Opened(rows: seq<MachineRow>, ops: seq<Transaction>, i: nat, a: Uuid, executor: Incarnation, t: int)
    requires |rows| == |ops| + 1
  {
    && Applied(rows, ops, i) && ops[i].AcceptToken?
    && ops[i].attempt == a && ops[i].executor == executor && ops[i].now == t
  }

  lemma AttemptStep(m: MachineRow, op: Transaction, a: Uuid)
    ensures var next := After(m, op);
            var opens := Apply(m, op).Some? && op.AcceptToken? && op.attempt == a;
            (a in next.attempts <==> a in m.attempts || opens)
            && (opens ==> a !in m.attempts && next.attempts[a].executor == op.executor
                          && next.attempts[a].deadline == op.now + ATTEMPT_SECONDS)
            && (a in m.attempts ==> next.attempts[a].executor == m.attempts[a].executor
                                    && next.attempts[a].deadline == m.attempts[a].deadline)
  {
  }

  /** An attempt exists exactly when a token acceptance opened it; executor and deadline never change. */
  lemma {:induction false} AttemptIffOpened(rows: seq<MachineRow>, ops: seq<Transaction>, first: Uuid, start: int,
                                            a: Uuid, executor: Incarnation, t: int, j: nat)
    requires History(rows, ops, first, start) && j <= |ops|
    ensures a in rows[j].attempts && rows[j].attempts[a].executor == executor
            && rows[j].attempts[a].deadline == t + ATTEMPT_SECONDS
            <==> exists i: nat :: i < j && Opened(rows, ops, i, a, executor, t)
  {
    hide After, Apply;
    if j == 0 {
      assert rows[0] == Created(first, start);
    } else {
      var p := j - 1;
      AttemptIffOpened(rows, ops, first, start, a, executor, t, p);
      AttemptStep(rows[p], ops[p], a);
      assert rows[j] == After(rows[p], ops[p]);
      if exists i: nat :: i < j && Opened(rows, ops, i, a, executor, t) {
        var i: nat :| i < j && Opened(rows, ops, i, a, executor, t);
        if i < p { assert Opened(rows, ops, i, a, executor, t); }
      }
      if Opened(rows, ops, p, a, executor, t) { assert p < j; }
    }
  }

  /** Transaction `k` ends attempt `a`, opened at time `t`, if it is still open. */
  predicate Settles(rows: seq<MachineRow>, ops: seq<Transaction>, k: nat, a: Uuid, t: int)
    requires |rows| == |ops| + 1
  {
    k < |ops| &&
    match ops[k]
    case Activate(attempt, _, _, _, _, _, _, _) => attempt == a && Applied(rows, ops, k)
    case FailAttempt(attempt, _) => attempt == a
    case RecoverAttempt(attempt, now) => attempt == a && t + ATTEMPT_SECONDS <= now
    case Invalidate(_, _, _) => Applied(rows, ops, k)
    case _ => false
  }

  predicate Unsettled(rows: seq<MachineRow>, ops: seq<Transaction>, i: nat, j: nat, a: Uuid, t: int)
    requires |rows| == |ops| + 1
  {
    forall k: nat :: i < k < j ==> !Settles(rows, ops, k, a, t)
  }

  /** Attempt `a` was opened before point `j` and nothing has settled it since. */
  ghost predicate OpenSince(rows: seq<MachineRow>, ops: seq<Transaction>, a: Uuid, executor: Incarnation, t: int,
                            j: nat)
    requires |rows| == |ops| + 1
  {
    exists i: nat :: i < j && Opened(rows, ops, i, a, executor, t) && Unsettled(rows, ops, i, j, a, t)
  }

  lemma OpenStep(rows: seq<MachineRow>, ops: seq<Transaction>, p: nat, a: Uuid)
    requires |rows| == |ops| + 1 && p < |ops| && rows[p + 1] == After(rows[p], ops[p])
    ensures IsOpen(rows[p + 1], a) <==>
            (Applied(rows, ops, p) && ops[p].AcceptToken? && ops[p].attempt == a)
            || (IsOpen(rows[p], a) && !Settles(rows, ops, p, a, rows[p].attempts[a].deadline - ATTEMPT_SECONDS))
  {
  }

  /** An attempt is open in the rows exactly when it was opened and nothing has settled it since. */
  lemma {:induction false} OpenIffUnsettled(rows: seq<MachineRow>, ops: seq<Transaction>, first: Uuid, start: int,
                                            a: Uuid, executor: Incarnation, t: int, j: nat)
    requires History(rows, ops, first, start) && j <= |ops|
    ensures IsOpen(rows[j], a) && rows[j].attempts[a].executor == executor
            && rows[j].attempts[a].deadline == t + ATTEMPT_SECONDS
            <==> OpenSince(rows, ops, a, executor, t, j)
  {
    hide After, Apply, Settles;
    if j == 0 {
      assert rows[0] == Created(first, start);
    } else {
      var p := j - 1;
      OpenIffUnsettled(rows, ops, first, start, a, executor, t, p);
      AttemptIffOpened(rows, ops, first, start, a, executor, t, p);
      AttemptStep(rows[p], ops[p], a);
      assert rows[j] == After(rows[p], ops[p]);
      OpenStep(rows, ops, p, a);
      OpenSinceStep(rows, ops, a, executor, t, p);
    }
  }

  lemma OpenSinceStep(rows: seq<MachineRow>, ops: seq<Transaction>, a: Uuid, executor: Incarnation, t: int, p: nat)
    requires |rows| == |ops| + 1 && p < |ops|
    ensures OpenSince(rows, ops, a, executor, t, p + 1) <==>
            Opened(rows, ops, p, a, executor, t)
            || (OpenSince(rows, ops, a, executor, t, p) && !Settles(rows, ops, p, a, t))
  {
    hide Apply, Settles;
    if Opened(rows, ops, p, a, executor, t) {
      assert Unsettled(rows, ops, p, p + 1, a, t);
    } else if OpenSince(rows, ops, a, executor, t, p) && !Settles(rows, ops, p, a, t) {
      var i: nat :| i < p && Opened(rows, ops, i, a, executor, t) && Unsettled(rows, ops, i, p, a, t);
      assert Unsettled(rows, ops, i, p + 1, a, t);
    }
    forall i: nat | i < p && Unsettled(rows, ops, i, p + 1, a, t)
      ensures Unsettled(rows, ops, i, p, a, t) && !Settles(rows, ops, p, a, t)
    {
    }
  }

  ghost predicate Reported(rows: seq<MachineRow>, ops: seq<Transaction>)
    requires |rows| == |ops| + 1
  {
    forall i :: 0 <= i < |ops| ==> Enrollment.Reported(rows[i], ops[i])
  }

  lemma {:induction false} RowsAreWellFormed(rows: seq<MachineRow>, ops: seq<Transaction>, first: Uuid, start: int,
                                             j: nat)
    requires History(rows, ops, first, start) && Reported(rows, ops) && j <= |ops|
    ensures WellFormed(rows[j])
  {
    hide After, WellFormed;
    if j == 0 {
      Enrollment.ReachableIsWellFormed(first, start, []);
    } else {
      RowsAreWellFormed(rows, ops, first, start, j - 1);
      Enrollment.StepKeeps(rows[j - 1], ops[j - 1]);
      assert rows[j] == After(rows[j - 1], ops[j - 1]);
    }
  }

  /**
    An activation commits exactly when its attempt was opened by this executor less than 120 seconds
    ago and nothing has settled it since, the revision is the current one, the evidence holds, the
    host key is not pinned to another and the binding is new. The Machine is then still being
    verified and unbound; the code's further tests never fail.
   */
  lemma ActivationIsExact(rows: seq<MachineRow>, ops: seq<Transaction>, first: Uuid, start: int, j: nat)
    requires History(rows, ops, first, start) && Reported(rows, ops) && j < |ops| && ops[j].Activate?
    ensures var op := ops[j];
            Applied(rows, ops, j) <==>
            && (exists t: int ::
                  OpenSince(rows, ops, op.attempt, op.executor, t, j) && op.now < t + ATTEMPT_SECONDS)
            && op.revision == rows[j].revision && op.evidence
            && (rows[j].hostKey == None || rows[j].hostKey == Some(op.key)) && op.binding !in rows[j].bindings
  {
    var op := ops[j];
    RowsAreWellFormed(rows, ops, first, start, j);
    forall t: int
      ensures OpenSince(rows, ops, op.attempt, op.executor, t, j) <==>
              IsOpen(rows[j], op.attempt) && rows[j].attempts[op.attempt].executor == op.executor
              && rows[j].attempts[op.attempt].deadline == t + ATTEMPT_SECONDS
    {
      OpenIffUnsettled(rows, ops, first, start, op.attempt, op.executor, t, j);
    }
    hide OpenSince, History;
    if IsOpen(rows[j], op.attempt) {
      OpenIsUnbound(rows[j], op.attempt);
      hide WellFormed;
      if Applied(rows, ops, j) {
        var t := rows[j].attempts[op.attempt].deadline - ATTEMPT_SECONDS;
        assert OpenSince(rows, ops, op.attempt, op.executor, t, j) && op.now < t + ATTEMPT_SECONDS;
      }
    }
  }

  lemma OpenIsUnbound(m: MachineRow, a: Uuid)
    requires WellFormed(m) && IsOpen(m, a)
    ensures m.lifecycle == Verifying && m.attempts[a].revision == m.revision
    ensures !exists b :: b in m.bindings && m.bindings[b].active
  {
    if b :| b in m.bindings && m.bindings[b].active {
      assert IsActive(m, b);
    }
  }

  /** An attempt is activated only by its own executor, less than 120 seconds after it was opened. */
  lemma ActivationIsTimely(rows: seq<MachineRow>, ops: seq<Transaction>, first: Uuid, start: int, j: nat)
    requires History(rows, ops, first, start) && j < |ops| && ops[j].Activate? && Applied(rows, ops, j)
    ensures exists i: nat, t: int ::
              i < j && Opened(rows, ops, i, ops[j].attempt, ops[j].executor, t) && ops[j].now < t + ATTEMPT_SECONDS
  {
    var a := ops[j].attempt;
    var t := rows[j].attempts[a].deadline - ATTEMPT_SECONDS;
    AttemptIffOpened(rows, ops, first, start, a, ops[j].executor, t, j);
  }

  /** Recovery fails an open attempt exactly from 120 seconds after its opening on, and else changes nothing. */
  lemma RecoveryIsTimely(rows: seq<MachineRow>, ops: seq<Transaction>, first: Uuid, start: int, j: nat)
    requires History(rows, ops, first, start) && j < |ops| && ops[j].RecoverAttempt? && IsOpen(rows[j], ops[j].attempt)
    ensures exists i: nat, executor: Incarnation, t: int ::
              i < j && Opened(rows, ops, i, ops[j].attempt, executor, t)
              && if ops[j].now >= t + ATTEMPT_SECONDS
                 then rows[j + 1].attempts == rows[j].attempts[ops[j].attempt :=
                                                rows[j].attempts[ops[j].attempt].(status := Failed)]
                 else rows[j + 1] == rows[j]
  {
    var a := ops[j].attempt;
    var t, executor := rows[j].attempts[a].deadline - ATTEMPT_SECONDS, rows[j].attempts[a].executor;
    AttemptIffOpened(rows, ops, first, start, a, executor, t, j);
    assert rows[j + 1] == After(rows[j], ops[j]);
  }
}
