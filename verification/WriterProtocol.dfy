/**
  Writer coordination inside one scope: attachments interleave freely, one at a time holds the
  dispatch lock, and the target's read-only switch is a toggle.
 */
module WriterProtocol {
  import opened Common
  import opened Writer

  datatype Directive = Demote(token: nat) | Close

  /** A control client on the target. `ending`: its workspace has decided to return. */
  datatype ControlClient = ControlClient(attachment: Attachment, writable: bool, queue: seq<Directive>, ending: bool)

  /** `entered`: the workspace has passed its first locked section. */
  datatype Phase = Chooser | Workspace(client: Client, entered: bool) | Leaving | Gone

  /** How far the holder of the dispatch lock has got. */
  datatype Stage =
    | Checking
    | Demoting(former: Client, token: nat, reply: Option<bool>)
    | Lost(former: Client)
    | Cleared(prior: Option<Client>)
    | Promoted(client: Client, prior: Option<Client>, ok: bool)
    | Writing(prior: Option<Client>)

  datatype Operation = Operation(attachment: Attachment, stage: Stage)

  datatype State = State(
    current: Pointer,
    op: Option<Operation>,
    phases: map<Attachment, Phase>,
    clients: map<Client, ControlClient>,
    next: nat)

  const Initial := State(None, None, map[], map[], 0)

  datatype Target = SessionCreate | PaneInput | Resize(size: Size) | WindowSelect | PaneSelect

  datatype Outcome = Succeeded | Failed | Ambiguous

  datatype Action =
    | Attach(x: Attachment)
    | Enter(x: Attachment, c: Client)
    | EndWorkspace(x: Attachment)
    | ClearControl(x: Attachment)
    | Leave(x: Attachment, listed: bool)
    | Lock(x: Attachment)
    | Unlock(x: Attachment)
    | Observe(x: Attachment)
    | BeginEntry(x: Attachment)
    | CheckWriter(x: Attachment)
    | ClaimCurrent(x: Attachment, size: Size)
    | StartClaim(x: Attachment, takeover: bool, sent: bool)
    | HandleDemote(c: Client, ok: bool, toggled: bool)
    | HandleClose(c: Client)
    | GiveUp(x: Attachment)
    | TakeReply(x: Attachment)
    | FailClaim(x: Attachment)
    | SetWithoutControl(x: Attachment, size: Size)
    | Promote(x: Attachment, ok: bool, toggled: bool)
    | FinishClaim(x: Attachment, size: Size)
    | FinishEntry(x: Attachment)
    | FailPromote(x: Attachment)
    | Dispatch(x: Attachment, target: Target, outcome: Outcome)
    | FailWriting(x: Attachment)

  predicate Holds(s: State, x: Attachment)
  {
    s.op.Some? && s.op.value.attachment == x
  }

  predicate InWorkspace(s: State, x: Attachment)
  {
    x in s.phases && s.phases[x].Workspace?
  }

  predicate InChooser(s: State, x: Attachment)
  {
    x in s.phases && s.phases[x].Chooser?
  }

  /** The client still exists on the target. */
  predicate Live(s: State, c: Client)
  {
    c in s.clients && InWorkspace(s, s.clients[c].attachment) && s.phases[s.clients[c].attachment].client == c
  }

  /** The attachment may run locked writer operations: a chooser, or a workspace past its entry. */
  predicate Running(s: State, x: Attachment)
  {
    InChooser(s, x) || (InWorkspace(s, x) && s.phases[x].entered)
  }

  function Control(p: Pointer): Option<Client>
  {
    if p.Some? then p.value.control else None
  }

  predicate Recorded(s: State, c: Client)
  {
    Control(s.current) == Some(c)
  }

  function AtStage(s: State, x: Attachment, stage: Stage): State
  {
    s.(op := Some(Operation(x, stage)))
  }

  /** Sending to a workspace that is gone has no effect. */
  function Queued(s: State, c: Client, d: Directive): State
  {
    if Live(s, c) then s.(clients := s.clients[c := s.clients[c].(queue := s.clients[c].queue + [d])]) else s
  }

  function Closing(s: State, prior: Option<Client>): State
  {
    if prior.Some? then Queued(s, prior.value, Close) else s
  }

  /** The workspace of `x`, if it is in one, returns. */
  function Ended(s: State, x: Attachment): State
  {
    if InWorkspace(s, x) && s.phases[x].client in s.clients then
      var c := s.phases[x].client;
      s.(clients := s.clients[c := s.clients[c].(ending := true)])
    else s
  }

  /** Fail closed: set the pointer, close the former writer's client, end the claimant, unlock. */
  function FailedClosed(s: State, x: Attachment, p: Pointer, prior: Option<Client>): State
  {
    Ended(Closing(s.(current := p, op := None), prior), x)
  }

  predicate Enabled(s: State, a: Action)
  {
    match a
    case Attach(x) => x !in s.phases
    case Enter(x, c) => InChooser(s, x) && !Holds(s, x) && c !in s.clients
    case EndWorkspace(x) => InWorkspace(s, x) && !Holds(s, x)
    case ClearControl(x) => x in s.phases && s.phases[x].Leaving? && s.op == None
    case Leave(x, _) => InChooser(s, x) && s.op == None
    case Lock(x) => s.op == None && (InChooser(s, x) || InWorkspace(s, x))
    case Unlock(x) => Holds(s, x) && (s.op.value.stage.Checking? || s.op.value.stage.Writing?)
    case Observe(x) => Holds(s, x) && s.op.value.stage.Checking? && InWorkspace(s, x) && !s.phases[x].entered
      && !IsCurrent(s.current, x)
    case BeginEntry(x) => Holds(s, x) && s.op.value.stage.Checking? && InWorkspace(s, x) && !s.phases[x].entered
      && IsCurrent(s.current, x)
    case CheckWriter(x) => Holds(s, x) && s.op.value.stage.Checking? && Running(s, x) && IsCurrent(s.current, x)
    case ClaimCurrent(x, _) => Holds(s, x) && s.op.value.stage.Checking? && Running(s, x) && IsCurrent(s.current, x)
    case StartClaim(x, takeover, sent) =>
      Holds(s, x) && s.op.value.stage.Checking? && Running(s, x) && !IsCurrent(s.current, x)
      && (s.current == None || takeover)
      && (sent ==> Control(s.current).Some? && Live(s, Control(s.current).value))
    case HandleDemote(c, ok, toggled) =>
      Live(s, c) && !Holds(s, s.clients[c].attachment) && s.phases[s.clients[c].attachment].entered
      && !s.clients[c].ending && s.clients[c].queue != [] && s.clients[c].queue[0].Demote? && (ok ==> toggled)
    case HandleClose(c) =>
      Live(s, c) && !Holds(s, s.clients[c].attachment) && s.phases[s.clients[c].attachment].entered
      && !s.clients[c].ending && s.clients[c].queue != [] && s.clients[c].queue[0].Close?
    case GiveUp(x) => Holds(s, x) && s.op.value.stage.Demoting?
    case TakeReply(x) => Holds(s, x) && s.op.value.stage.Demoting? && s.op.value.stage.reply.Some?
    case FailClaim(x) => Holds(s, x)
      && (s.op.value.stage.Lost? || (s.op.value.stage.Cleared? && s.op.value.stage.prior.Some?))
    case SetWithoutControl(x, _) => Holds(s, x) && s.op.value.stage.Cleared? && InChooser(s, x)
    case Promote(x, ok, toggled) =>
      Holds(s, x) && s.op.value.stage.Cleared? && InWorkspace(s, x) && Live(s, s.phases[x].client) && (ok ==> toggled)
    case FinishClaim(x, _) => Holds(s, x) && s.op.value.stage.Promoted? && s.op.value.stage.ok && Running(s, x)
    case FinishEntry(x) => Holds(s, x) && s.op.value.stage.Promoted? && s.op.value.stage.ok && InWorkspace(s, x)
      && !s.phases[x].entered
    case FailPromote(x) => Holds(s, x) && s.op.value.stage.Promoted? && (Running(s, x) || !s.op.value.stage.ok)
    case Dispatch(x, target, outcome) =>
      Holds(s, x) && s.op.value.stage.Writing? && (InChooser(s, x) <==> target.SessionCreate?)
    case FailWriting(x) => Holds(s, x) && s.op.value.stage.Writing?
  }

  function Toggled(c: ControlClient, toggled: bool): ControlClient
  {
    if toggled then c.(writable := !c.writable) else c
  }

  function Handled(s: State, c: Client, ok: bool, toggled: bool): State
    requires Enabled(s, HandleDemote(c, ok, toggled))
  {
    var k := s.clients[c];
    var s' := s.(clients := s.clients[c := Toggled(k, toggled).(queue := k.queue[1..], ending := !ok)]);
    if s.op.Some? && s.op.value.stage == Demoting(c, k.queue[0].token, None)
    then AtStage(s', s.op.value.attachment, Demoting(c, k.queue[0].token, Some(ok)))
    else s'
  }

  function Dispatched(s: State, x: Attachment, target: Target, outcome: Outcome): State
    requires Enabled(s, Dispatch(x, target, outcome))
  {
    match outcome
    case Succeeded => if target.Resize? then s.(current := WithSize(s.current, x, target.size)) else s
    case Failed => s
    case Ambiguous =>
      if target.SessionCreate? then s.(current := None, op := None)
      else FailedClosed(s, x, ClearedIf(s.current, x), s.op.value.stage.prior)
  }

  function Next(s: State, a: Action): State
    requires Enabled(s, a)
  {
    match a
    case Attach(x) => s.(phases := s.phases[x := Chooser])
    case Enter(x, c) => s.(phases := s.phases[x := Workspace(c, false)],
      clients := s.clients[c := ControlClient(x, false, [], false)])
    case EndWorkspace(x) => s.(phases := s.phases[x := Leaving])
    case ClearControl(x) => s.(current := WithControl(s.current, x, None), phases := s.phases[x := Chooser])
    case Leave(x, listed) => s.(current := if listed then ClearedIf(s.current, x) else s.current,
      phases := s.phases[x := Gone])
    case Lock(x) => AtStage(s, x, Checking)
    case Unlock(x) => s.(op := None)
    case Observe(x) => s.(op := None, phases := s.phases[x := s.phases[x].(entered := true)])
    case BeginEntry(x) => AtStage(s, x, Cleared(None))
    case CheckWriter(x) => AtStage(s, x, Writing(None))
    case ClaimCurrent(x, size) =>
      var p := WithSize(s.current, x, size);
      AtStage(s.(current := if InWorkspace(s, x) then WithControl(p, x, Some(s.phases[x].client)) else p), x,
        Writing(None))
    case StartClaim(x, _, sent) =>
      var prior := Control(s.current);
      if prior == None then AtStage(s, x, Cleared(None))
      else if sent then AtStage(Queued(s, prior.value, Demote(s.next)), x,
        Demoting(prior.value, s.next, None)).(next := s.next + 1)
      else AtStage(s, x, Lost(prior.value))
    case HandleDemote(c, ok, toggled) => Handled(s, c, ok, toggled)
    case HandleClose(c) => s.(clients := s.clients[c := s.clients[c].(queue := s.clients[c].queue[1..],
      ending := true)])
    case GiveUp(x) => AtStage(s, x, Lost(s.op.value.stage.former))
    case TakeReply(x) =>
      var former := s.op.value.stage.former;
      AtStage(s, x, if s.op.value.stage.reply.value then Cleared(Some(former)) else Lost(former))
    case FailClaim(x) =>
      FailedClosed(s, x, None, if s.op.value.stage.Lost? then Some(s.op.value.stage.former) else s.op.value.stage.prior)
    case SetWithoutControl(x, size) => s.(current := Some(Handle(x, size, None)), op := None)
    case Promote(x, ok, toggled) =>
      var c := s.phases[x].client;
      AtStage(s.(clients := s.clients[c := Toggled(s.clients[c], toggled)]), x, Promoted(c, s.op.value.stage.prior, ok))
    case FinishClaim(x, size) =>
      AtStage(s.(current := Some(Handle(x, size, Some(s.op.value.stage.client)))), x, Writing(s.op.value.stage.prior))
    case FinishEntry(x) =>
      AtStage(s.(current := WithControl(s.current, x, Some(s.op.value.stage.client)),
                 phases := s.phases[x := s.phases[x].(entered := true)]), x, Writing(None))
    case FailPromote(x) =>
      FailedClosed(s, x, if Running(s, x) then None else ClearedIf(s.current, x), s.op.value.stage.prior)
    case Dispatch(x, target, outcome) => Dispatched(s, x, target, outcome)
    case FailWriting(x) => FailedClosed(s, x, ClearedIf(s.current, x), s.op.value.stage.prior)
  }

  // ---- Invariant ----

  /** Nothing tells the workspace of `c` to return. */
  predicate Healthy(k: ControlClient)
  {
    !k.ending && Close !in k.queue
  }

  /** The former writer's client named by a claim in progress. */
  function Former(stage: Stage): Option<Client>
  {
    match stage
    case Demoting(c, _, _) => Some(c)
    case Lost(c) => Some(c)
    case Cleared(prior) => prior
    case Promoted(_, prior, _) => prior
    case _ => None
  }

  function StageOf(s: State): Stage
  {
    if s.op.Some? then s.op.value.stage else Checking
  }

  /** Every client record belongs to the attachment that entered with it. */
  predicate Linked(s: State)
  {
    (forall x :: x in s.phases && s.phases[x].Workspace? ==>
       s.phases[x].client in s.clients && s.clients[s.phases[x].client].attachment == x)
    && (forall c :: c in s.clients ==> s.clients[c].attachment in s.phases)
  }

  /** What the pointer's control field may hold, given the phase of the recorded writer. */
  predicate PointerOk(s: State)
  {
    s.current.Some? ==>
      var h := s.current.value;
      h.attachment in s.phases
      && match s.phases[h.attachment] {
           case Workspace(c, entered) => h.control == if entered then Some(c) else None
           case Leaving =>
             h.control.Some? ==>
               h.control.value in s.clients && s.clients[h.control.value].attachment == h.attachment
           case _ => h.control == None
         }
  }

  predicate OpOk(s: State)
  {
    s.op.Some? ==>
      var x, stage := s.op.value.attachment, s.op.value.stage;
      (InChooser(s, x) || InWorkspace(s, x))
      && (stage.Writing? ==> IsCurrent(s.current, x) && Running(s, x))
      && (stage.Promoted? ==> InWorkspace(s, x) && s.phases[x].client == stage.client)
      && (Former(stage).Some? ==> Control(s.current) == Former(stage))
      && (stage.Cleared? || stage.Promoted? || stage.Demoting? || stage.Lost? ==>
            if Running(s, x) then !IsCurrent(s.current, x) && Control(s.current) == Former(stage)
            else IsCurrent(s.current, x) && Former(stage) == None)
      && (stage.Demoting? ==> stage.token < s.next)
  }

  /** Whether the target lets a client write, at every point of every run. */
  predicate ClientOk(s: State, c: Client)
    requires c in s.clients
  {
    Live(s, c) && Healthy(s.clients[c]) ==>
      var k, stage := s.clients[c], StageOf(s);
      match stage {
        case Demoting(d, token, reply) =>
          if d != c then k.queue == [] && (k.writable <==> Recorded(s, c))
          else if reply == None then k.queue == [Demote(token)] && k.writable
          else k.queue == [] && reply.value && !k.writable
        case Lost(d) => d == c || (k.queue == [] && (k.writable <==> Recorded(s, c)))
        case Cleared(prior) => k.queue == [] && (k.writable <==> Recorded(s, c) && prior != Some(c))
        case Promoted(d, prior, ok) =>
          k.queue == [] && if d == c then (ok ==> k.writable) else (k.writable <==> Recorded(s, c) && prior != Some(c))
        case _ => k.queue == [] && (k.writable <==> Recorded(s, c))
      }
  }

  predicate Inv(s: State)
  {
    Linked(s) && PointerOk(s) && OpOk(s) && forall c :: c in s.clients ==> ClientOk(s, c)
  }

  lemma PhaseKeeps(s: State, a: Action)
    requires Inv(s) && Enabled(s, a)
    requires a.Attach? || a.Enter? || a.EndWorkspace?
    ensures Inv(Next(s, a))
  {
    var s' := Next(s, a);
    forall c | c in s'.clients ensures ClientOk(s', c) {
      if c in s.clients { assert ClientOk(s, c); }
    }
  }

  lemma ExitKeeps(s: State, a: Action)
    requires Inv(s) && Enabled(s, a)
    requires a.ClearControl? || a.Leave?
    ensures Inv(Next(s, a))
  {
    var s' := Next(s, a);
    forall c | c in s'.clients ensures ClientOk(s', c) {
      assert ClientOk(s, c);
    }
  }

  lemma LockKeeps(s: State, a: Action)
    requires Inv(s) && Enabled(s, a)
    requires a.Lock? || a.Unlock? || a.Observe?
    ensures Inv(Next(s, a))
  {
  }

  lemma ClaimKeeps(s: State, a: Action)
    requires Inv(s) && Enabled(s, a)
    requires a.BeginEntry? || a.CheckWriter? || a.ClaimCurrent? || a.StartClaim? || a.GiveUp? || a.TakeReply?
    ensures Inv(Next(s, a))
  {
    if a.BeginEntry? || a.CheckWriter? || a.ClaimCurrent? {
      WriterKeeps(s, a);
    } else {
      TakeoverKeeps(s, a);
    }
    hide Inv, Enabled, Next;
  }

  /** The recorded writer enters or checks itself. */
  lemma WriterKeeps(s: State, a: Action)
    requires Inv(s) && Enabled(s, a)
    requires a.BeginEntry? || a.CheckWriter? || a.ClaimCurrent?
    ensures Inv(Next(s, a))
  {
  }

  /** Another attachment asks the former writer to step back. */
  lemma TakeoverKeeps(s: State, a: Action)
    requires Inv(s) && Enabled(s, a)
    requires a.StartClaim? || a.GiveUp? || a.TakeReply?
    ensures Inv(Next(s, a))
  {
  }

  /** What one handled demotion does to the client that handles it. */
  lemma DemoteKeepsOwn(s: State, c: Client, ok: bool, toggled: bool)
    requires Inv(s) && Enabled(s, HandleDemote(c, ok, toggled))
    ensures ClientOk(Handled(s, c, ok, toggled), c)
  {
    assert ClientOk(s, c);
    var queue := s.clients[c].queue;
    assert Close in queue[1..] <==> Close in queue;
  }

  lemma DemoteKeepsOther(s: State, c: Client, ok: bool, toggled: bool, d: Client)
    requires Inv(s) && Enabled(s, HandleDemote(c, ok, toggled)) && d in s.clients && d != c
    ensures ClientOk(Handled(s, c, ok, toggled), d)
  {
    assert ClientOk(s, d);
  }

  lemma DemoteKeeps(s: State, c: Client, ok: bool, toggled: bool)
    requires Inv(s) && Enabled(s, HandleDemote(c, ok, toggled))
    ensures Inv(Next(s, HandleDemote(c, ok, toggled)))
  {
    var s' := Handled(s, c, ok, toggled);
    DemoteKeepsOwn(s, c, ok, toggled);
    hide ClientOk;
    forall d | d in s'.clients ensures ClientOk(s', d) {
      if d != c { DemoteKeepsOther(s, c, ok, toggled, d); }
    }
  }

  lemma CloseKeeps(s: State, c: Client)
    requires Inv(s) && Enabled(s, HandleClose(c))
    ensures Inv(Next(s, HandleClose(c)))
  {
    var s' := Next(s, HandleClose(c));
    forall d | d in s'.clients ensures ClientOk(s', d) {
      assert ClientOk(s, d);
    }
  }

  lemma PromoteKeeps(s: State, a: Action)
    requires Inv(s) && Enabled(s, a)
    requires a.SetWithoutControl? || a.Promote? || a.FinishClaim? || a.FinishEntry?
    ensures Inv(Next(s, a))
  {
  }

  /** Failing closed changes only the queue and the ending flag of the clients it names. */
  lemma FailedClosedEffect(s: State, x: Attachment, p: Pointer, prior: Option<Client>)
    requires Linked(s)
    ensures var s' := FailedClosed(s, x, p, prior);
            s'.current == p && s'.op == None && s'.phases == s.phases && s'.clients.Keys == s.clients.Keys
            && forall c :: c in s.clients ==>
                 var k, k' := s.clients[c], s'.clients[c];
                 k'.attachment == k.attachment && k'.writable == k.writable
                 && (prior == Some(c) && Live(s, c) ==> !Healthy(k'))
                 && (InWorkspace(s, x) && s.phases[x].client == c ==> !Healthy(k'))
                 && (k' != k ==> Live(s, c) && !Healthy(k'))
  {
  }

  /** Giving the pointer up is safe once the former writer's client is told to close. */
  lemma FailedClosedKeeps(s: State, x: Attachment, prior: Option<Client>)
    requires Inv(s) && Holds(s, x)
    requires StageOf(s).Lost? || StageOf(s).Cleared? || StageOf(s).Promoted? || StageOf(s).Writing?
    requires Former(StageOf(s)).Some? ==> prior == Former(StageOf(s))
    ensures Inv(FailedClosed(s, x, None, prior))
  {
    FailedClosedEffect(s, x, None, prior);
    var s' := FailedClosed(s, x, None, prior);
    forall c | c in s'.clients ensures ClientOk(s', c) {
      assert ClientOk(s, c);
    }
  }

  lemma FailureKeeps(s: State, a: Action)
    requires Inv(s) && Enabled(s, a)
    requires a.FailClaim? || a.FailPromote? || a.FailWriting? || a.Dispatch?
    ensures Inv(Next(s, a))
  {
    match a
    case FailClaim(x) =>
      FailedClosedKeeps(s, x, Former(StageOf(s)));
    case FailPromote(x) =>
      FailedClosedKeeps(s, x, StageOf(s).prior);
    case FailWriting(x) =>
      FailedClosedKeeps(s, x, StageOf(s).prior);
    case Dispatch(x, target, outcome) =>
      if outcome.Ambiguous? && !target.SessionCreate? {
        FailedClosedKeeps(s, x, StageOf(s).prior);
      }
  }

  lemma StepKeeps(s: State, a: Action)
    requires Inv(s) && Enabled(s, a)
    ensures Inv(Next(s, a))
  {
    hide Linked, PointerOk, OpOk, ClientOk, Enabled, Next, Inv;
    match a
    case Attach(_) | Enter(_, _) | EndWorkspace(_) =>
      PhaseKeeps(s, a);
    case ClearControl(_) | Leave(_, _) =>
      ExitKeeps(s, a);
    case Lock(_) | Unlock(_) | Observe(_) =>
      LockKeeps(s, a);
    case BeginEntry(_) | CheckWriter(_) | ClaimCurrent(_, _) | StartClaim(_, _, _) | GiveUp(_) | TakeReply(_) =>
      ClaimKeeps(s, a);
    case HandleDemote(c, ok, toggled) =>
      DemoteKeeps(s, c, ok, toggled);
    case HandleClose(c) =>
      CloseKeeps(s, c);
    case SetWithoutControl(_, _) | Promote(_, _, _) | FinishClaim(_, _) | FinishEntry(_) =>
      PromoteKeeps(s, a);
    case FailClaim(_) | FailPromote(_) | FailWriting(_) | Dispatch(_, _, _) =>
      FailureKeeps(s, a);
  }

  // ---- Runs ----

  predicate IsRun(states: seq<State>, actions: seq<Action>)
  {
    |states| == |actions| + 1 && states[0] == Initial
    && forall i :: 0 <= i < |actions| ==> Enabled(states[i], actions[i]) && states[i + 1] == Next(states[i], actions[i])
  }

  lemma StartHolds()
    ensures Inv(Initial)
  {
  }

  lemma {:induction false} RunHolds(states: seq<State>, actions: seq<Action>, i: nat)
    requires IsRun(states, actions) && i < |states|
    ensures Inv(states[i])
  {
    hide Linked, PointerOk, OpOk, ClientOk, Enabled, Next, Inv;
    if i == 0 {
      StartHolds();
    } else {
      RunHolds(states, actions, i - 1);
      StepKeeps(states[i - 1], actions[i - 1]);
    }
  }

  /**
    Every target operation of every run is sent by the recorded writer, which alone holds the
    dispatch lock; from a workspace it goes through the recorded client, and unless that
    workspace has been told to close the target lets that client write.
   */
  lemma DispatchIsByTheWriter(states: seq<State>, actions: seq<Action>, i: nat)
    requires IsRun(states, actions) && i < |actions| && actions[i].Dispatch?
    ensures var s, x := states[i], actions[i].x;
            IsCurrent(s.current, x)
            && (forall b :: Enabled(s, b) && b.Dispatch? ==> b.x == x)
            && (!actions[i].target.SessionCreate? ==>
                  InWorkspace(s, x) && Recorded(s, s.phases[x].client) && s.phases[x].client in s.clients
                  && (Healthy(s.clients[s.phases[x].client]) ==> s.clients[s.phases[x].client].writable))
  {
    RunHolds(states, actions, i);
    var s, x := states[i], actions[i].x;
    if !actions[i].target.SessionCreate? {
      assert ClientOk(s, s.phases[x].client);
    }
  }

  /** A live client the target lets write is the recorded one, is being promoted, or is told to return. */
  lemma StrayWriterIsClosing(states: seq<State>, actions: seq<Action>, i: nat, c: Client)
    requires IsRun(states, actions) && i < |states|
    requires Live(states[i], c) && states[i].clients[c].writable && !Recorded(states[i], c)
    ensures states[i].clients[c].ending || Close in states[i].clients[c].queue
            || (StageOf(states[i]).Promoted? && StageOf(states[i]).client == c)
  {
    RunHolds(states, actions, i);
    assert ClientOk(states[i], c);
  }

  /** While nobody holds the lock, a client nothing tells to return is writable exactly when recorded. */
  lemma WritableIffRecorded(states: seq<State>, actions: seq<Action>, i: nat, c: Client)
    requires IsRun(states, actions) && i < |states| && states[i].op == None
    requires Live(states[i], c) && Healthy(states[i].clients[c])
    ensures states[i].clients[c].writable <==> Recorded(states[i], c)
  {
    RunHolds(states, actions, i);
    assert ClientOk(states[i], c);
  }

  /** Every transition outcome is success. */
  predicate Smooth(s: State, a: Action)
  {
    match a
    case HandleDemote(_, ok, _) => ok
    case StartClaim(_, _, sent) => sent || Control(s.current) == None
    case Promote(_, ok, _) => ok
    case Dispatch(_, _, outcome) => !outcome.Ambiguous?
    case GiveUp(_) | FailClaim(_) | FailPromote(_) | FailWriting(_) => false
    case _ => true
  }

  predicate AllHealthy(s: State)
  {
    forall c :: c in s.clients ==> Healthy(s.clients[c])
  }

  lemma {:induction false} SmoothIsHealthy(states: seq<State>, actions: seq<Action>, i: nat)
    requires IsRun(states, actions) && i < |states|
    requires forall j :: 0 <= j < i ==> Smooth(states[j], actions[j])
    ensures AllHealthy(states[i])
  {
    if i > 0 {
      SmoothIsHealthy(states, actions, i - 1);
      SmoothStep(states[i - 1], actions[i - 1]);
    }
  }

  lemma SmoothStep(s: State, a: Action)
    requires Enabled(s, a) && Smooth(s, a) && AllHealthy(s)
    ensures AllHealthy(Next(s, a))
  {
  }

  /** With only successful outcomes, the toggle leaves exactly the recorded writer's client writable. */
  lemma SmoothRunIsExact(states: seq<State>, actions: seq<Action>, i: nat, c: Client)
    requires IsRun(states, actions) && i < |states| && states[i].op == None
    requires forall j :: 0 <= j < i ==> Smooth(states[j], actions[j])
    requires Live(states[i], c)
    ensures states[i].clients[c].writable <==> Recorded(states[i], c)
  {
    SmoothIsHealthy(states, actions, i);
    WritableIffRecorded(states, actions, i, c);
  }

  /** `y` becomes the writer by its own claim. */
  predicate IsClaimBy(a: Action, y: Attachment)
  {
    (a.FinishClaim? || a.SetWithoutControl?) && a.x == y
  }

  lemma OnlyClaimsRecord(s: State, a: Action, y: Attachment)
    requires Enabled(s, a) && !IsCurrent(s.current, y) && IsCurrent(Next(s, a).current, y)
    ensures IsClaimBy(a, y)
  {
  }

  /**
    After another attachment has taken the pointer, the former writer sends nothing to the
    target until a claim of its own has completed.
   */
  lemma {:induction false} FormerWriterIsSilent(states: seq<State>, actions: seq<Action>, i: nat, j: nat)
    requires IsRun(states, actions) && i <= j < |actions| && actions[j].Dispatch?
    requires !IsCurrent(states[i].current, actions[j].x)
    ensures exists k :: i <= k < j && IsClaimBy(actions[k], actions[j].x)
  {
    DispatchIsByTheWriter(states, actions, j);
    ClaimBetween(states, actions, i, j, actions[j].x);
  }

  lemma {:induction false} ClaimBetween(states: seq<State>, actions: seq<Action>, i: nat, j: nat, y: Attachment)
    requires IsRun(states, actions) && i <= j < |states|
    requires !IsCurrent(states[i].current, y) && IsCurrent(states[j].current, y)
    ensures exists k :: i <= k < j && IsClaimBy(actions[k], y)
  {
    hide Enabled, Next;
    if IsCurrent(states[j - 1].current, y) {
      ClaimBetween(states, actions, i, j - 1, y);
    } else {
      OnlyClaimsRecord(states[j - 1], actions[j - 1], y);
    }
  }

  /** The scopes handed out so far, each with the run it has made. */
  ghost predicate Worlds(runs: map<nat, (seq<State>, seq<Action>)>)
  {
    forall id :: id in runs ==> IsRun(runs[id].0, runs[id].1)
  }

  function Now(runs: map<nat, (seq<State>, seq<Action>)>, id: nat): State
    requires id in runs && |runs[id].0| > 0
  {
    runs[id].0[|runs[id].0| - 1]
  }

  /**
    Attachments served for one route dispatch one at a time, provided no other route of the
    Machine was requested between their requests.
   */
  lemma RouteHasOneDispatcher(requests: seq<Request>, i: nat, j: nat, runs: map<nat, (seq<State>, seq<Action>)>,
                              a: Action, b: Action)
    requires i < j < |requests| && requests[i] == requests[j]
    requires Faithful(requests[i + 1..j], requests[i].machine, requests[i].route)
    requires Worlds(runs) && Given(requests, i).id in runs && Given(requests, j).id in runs
    requires a.Dispatch? && Enabled(Now(runs, Given(requests, i).id), a)
    requires b.Dispatch? && Enabled(Now(runs, Given(requests, j).id), b)
    ensures a.x == b.x
  {
    SameRouteSameScope(requests, i, j);
  }

  /** The run in which `x` claims from the chooser and is about to create a session. */
  function ClaimAlone(x: Attachment): (seq<State>, seq<Action>)
  {
    var size := Size(80, 24);
    var writer := Some(Handle(x, size, None));
    var phases := map[x := Chooser];
    ([Initial,
      State(None, None, phases, map[], 0),
      State(None, Some(Operation(x, Checking)), phases, map[], 0),
      State(None, Some(Operation(x, Cleared(None))), phases, map[], 0),
      State(writer, None, phases, map[], 0),
      State(writer, Some(Operation(x, Checking)), phases, map[], 0),
      State(writer, Some(Operation(x, Writing(None))), phases, map[], 0)],
     [Attach(x), Lock(x), StartClaim(x, false, false), SetWithoutControl(x, size), Lock(x), CheckWriter(x)])
  }

  lemma ClaimAloneStep(x: Attachment, i: nat)
    requires i < 6
    ensures var (states, actions) := ClaimAlone(x);
            Enabled(states[i], actions[i]) && states[i + 1] == Next(states[i], actions[i])
  {
  }

  lemma ClaimAloneRuns(x: Attachment)
    ensures IsRun(ClaimAlone(x).0, ClaimAlone(x).1)
    ensures |ClaimAlone(x).0| == 7 && Enabled(ClaimAlone(x).0[6], Dispatch(x, SessionCreate, Succeeded))
  {
    var (states, actions) := ClaimAlone(x);
    assert Enabled(states[6], Dispatch(x, SessionCreate, Succeeded));
    hide Enabled, Next;
    forall i | 0 <= i < |actions|
      ensures Enabled(states[i], actions[i]) && states[i + 1] == Next(states[i], actions[i])
    {
      ClaimAloneStep(x, i);
    }
  }

  /** Without that proviso a route asked for again gets a second scope, and so a second dispatcher. */
  lemma ReturningRouteHasTwoDispatchers(machine: MachineId, r: Route, other: Route, x: Attachment, y: Attachment)
    requires r != other
    ensures var requests := [Request(machine, r), Request(machine, other), Request(machine, r)];
            exists runs :: Worlds(runs) && Given(requests, 0).id in runs && Given(requests, 2).id in runs
              && Enabled(Now(runs, Given(requests, 0).id), Dispatch(x, SessionCreate, Succeeded))
              && Enabled(Now(runs, Given(requests, 2).id), Dispatch(y, SessionCreate, Succeeded))
  {
    var requests := [Request(machine, r), Request(machine, other), Request(machine, r)];
    assert requests[1..2][0] == requests[1];
    assert !Faithful(requests[1..2], machine, r);
    SameRouteSameScope(requests, 0, 2);
    var first, third := Given(requests, 0), Given(requests, 2);
    assert first.route == third.route == r;
    var runs := map[first.id := ClaimAlone(x), third.id := ClaimAlone(y)];
    ClaimAloneRuns(x);
    ClaimAloneRuns(y);
    hide Enabled, Next, ClaimAlone;
    assert Worlds(runs);
    assert Now(runs, first.id) == ClaimAlone(x).0[6];
    assert Now(runs, third.id) == ClaimAlone(y).0[6];
  }
  // ---- Takeover ----

  /** A claim is under way: its holder has asked for the pointer and not yet got it. */
  predicate Claiming(s: State)
  {
    s.op.Some? && (StageOf(s).Demoting? || StageOf(s).Lost? || StageOf(s).Cleared? || StageOf(s).Promoted?)
    && Running(s, s.op.value.attachment)
  }

  /** The claim under way at `k` was started at `k1`, and the pointer has not changed since. */
  predicate StartedAt(states: seq<State>, actions: seq<Action>, k1: nat, k: nat)
    requires |states| == |actions| + 1 && k1 < k < |states|
  {
    Claiming(states[k]) && actions[k1].StartClaim? && actions[k1].x == states[k].op.value.attachment
    && (states[k1].current == None || actions[k1].takeover)
    && forall q :: k1 < q <= k ==> Holds(states[q], actions[k1].x) && states[q].current == states[k1].current
  }

  /** One step of a claim under way keeps it, or starts it. */
  lemma ClaimingStep(s: State, a: Action)
    requires Inv(s) && Enabled(s, a) && Claiming(Next(s, a))
    ensures Next(s, a).current == s.current
    ensures (Claiming(s) && s.op.value.attachment == Next(s, a).op.value.attachment)
            || (a.StartClaim? && a.x == Next(s, a).op.value.attachment && (s.current == None || a.takeover))
  {
    ClaimingKeepsPointer(s, a);
    ClaimingStarts(s, a);
    hide Inv, Enabled, Next, Claiming;
  }

  lemma ClaimingKeepsPointer(s: State, a: Action)
    requires Enabled(s, a) && Claiming(Next(s, a))
    ensures Next(s, a).current == s.current
  {
  }

  lemma ClaimingStarts(s: State, a: Action)
    requires Inv(s) && Enabled(s, a) && Claiming(Next(s, a))
    ensures (Claiming(s) && s.op.value.attachment == Next(s, a).op.value.attachment)
            || (a.StartClaim? && a.x == Next(s, a).op.value.attachment && (s.current == None || a.takeover))
  {
  }

  lemma {:induction false} ClaimHasStart(states: seq<State>, actions: seq<Action>, k: nat) returns (k1: nat)
    requires IsRun(states, actions) && k < |states| && Claiming(states[k])
    ensures k1 < k && StartedAt(states, actions, k1, k)
  {
    hide Enabled, Next, Running, Inv;
    assert k > 0;
    RunHolds(states, actions, k - 1);
    ClaimingStep(states[k - 1], actions[k - 1]);
    if Claiming(states[k - 1]) && states[k - 1].op.value.attachment == states[k].op.value.attachment {
      k1 := ClaimHasStart(states, actions, k - 1);
    } else {
      k1 := k - 1;
    }
  }

  /** `x` gave the pointer up by leaving, or a step failed closed: nobody is recorded. */
  predicate GivesUp(a: Action, x: Attachment)
  {
    (a.Leave? && a.x == x) || a.FailClaim? || a.FailPromote? || a.FailWriting? || (a.Dispatch? && a.outcome.Ambiguous?)
  }

  lemma PointerChanges(s: State, a: Action, x: Attachment)
    requires Inv(s) && Enabled(s, a) && IsCurrent(s.current, x) && !IsCurrent(Next(s, a).current, x)
    ensures (Next(s, a).current == None && GivesUp(a, x))
            || ((a.FinishClaim? || a.SetWithoutControl?) && a.x != x && Claiming(s) && s.op.value.attachment == a.x
                && IsCurrent(Next(s, a).current, a.x))
  {
  }

  /** Step `k` ends the tenure of `x`: it was given up, or another attachment's takeover completed. */
  ghost predicate TenureEnds(states: seq<State>, actions: seq<Action>, k: nat, x: Attachment)
    requires |states| == |actions| + 1 && k < |actions|
  {
    IsCurrent(states[k].current, x)
    && ((states[k + 1].current == None && GivesUp(actions[k], x))
        || exists k1: nat ::
             k1 < k && StartedAt(states, actions, k1, k) && actions[k1].takeover && actions[k1].x != x
             && IsClaimBy(actions[k], actions[k1].x) && IsCurrent(states[k + 1].current, actions[k1].x))
  }

  lemma WriterLeavesTenure(states: seq<State>, actions: seq<Action>, k: nat, x: Attachment)
    requires IsRun(states, actions) && k < |actions|
    requires IsCurrent(states[k].current, x) && !IsCurrent(states[k + 1].current, x)
    ensures TenureEnds(states, actions, k, x)
  {
    RunHolds(states, actions, k);
    hide Inv, Enabled, Next;
    PointerChanges(states[k], actions[k], x);
    if Claiming(states[k]) && (actions[k].FinishClaim? || actions[k].SetWithoutControl?) {
      var k1 := ClaimHasStart(states, actions, k);
    }
  }

  /**
    A recorded writer stops being the writer only by giving the pointer up, by a step that fails
    closed and leaves nobody recorded, or by another attachment's claim that asked for takeover.
   */
  lemma {:induction false} WriterIsDisplacedOnlyByTakeover(states: seq<State>, actions: seq<Action>, i: nat, j: nat,
                                                          x: Attachment)
    requires IsRun(states, actions) && i <= j < |states|
    requires IsCurrent(states[i].current, x) && !IsCurrent(states[j].current, x)
    ensures exists k: nat :: i <= k < j && TenureEnds(states, actions, k, x)
  {
    hide Enabled, Next, TenureEnds;
    if !IsCurrent(states[j - 1].current, x) {
      WriterIsDisplacedOnlyByTakeover(states, actions, i, j - 1, x);
    } else {
      WriterLeavesTenure(states, actions, j - 1, x);
    }
  }

  /** A claim that did not ask for takeover completes only when nobody is recorded. */
  lemma PlainClaimFindsNobody(states: seq<State>, actions: seq<Action>, k1: nat, k: nat)
    requires IsRun(states, actions) && k1 < k < |actions| && StartedAt(states, actions, k1, k)
    requires !actions[k1].takeover && IsClaimBy(actions[k], actions[k1].x)
    ensures states[k].current == None && states[k1].current == None
  {
  }

  /** And a takeover does displace: attachment `y` becomes the writer while `x` is recorded. */
  lemma TakeoverDisplaces(x: Attachment, y: Attachment) returns (states: seq<State>, actions: seq<Action>)
    requires x != y
    ensures IsRun(states, actions) && |states| > 4
    ensures IsCurrent(states[4].current, x) && IsCurrent(states[|states| - 1].current, y)
  {
    var size := Size(80, 24);
    var writer, next := Some(Handle(x, size, None)), Some(Handle(y, size, None));
    var one, two := map[x := Chooser], map[x := Chooser, y := Chooser];
    states := [Initial,
      State(None, None, one, map[], 0),
      State(None, Some(Operation(x, Checking)), one, map[], 0),
      State(None, Some(Operation(x, Cleared(None))), one, map[], 0),
      State(writer, None, one, map[], 0),
      State(writer, None, two, map[], 0),
      State(writer, Some(Operation(y, Checking)), two, map[], 0),
      State(writer, Some(Operation(y, Cleared(None))), two, map[], 0),
      State(next, None, two, map[], 0)];
    actions := [Attach(x), Lock(x), StartClaim(x, false, false), SetWithoutControl(x, size),
      Attach(y), Lock(y), StartClaim(y, true, false), SetWithoutControl(y, size)];
    forall i | 0 <= i < |actions|
      ensures Enabled(states[i], actions[i]) && states[i + 1] == Next(states[i], actions[i])
    {
      assert one[y := Chooser] == two;
    }
  }

  // ---- The recorded size ----

  /** The attachment and size that an action records. */
  function SizeSet(a: Action): Option<(Attachment, Size)>
  {
    match a
    case ClaimCurrent(x, size) => Some((x, size))
    case SetWithoutControl(x, size) => Some((x, size))
    case FinishClaim(x, size) => Some((x, size))
    case Dispatch(x, Resize(size), Succeeded) => Some((x, size))
    case _ => None
  }

  lemma SizeStep(s: State, a: Action)
    requires Inv(s) && Enabled(s, a) && Next(s, a).current.Some?
    ensures var h := Next(s, a).current.value;
            match SizeSet(a) {
              case Some(p) => p == (h.attachment, h.size)
              case None =>
                s.current.Some? && s.current.value.attachment == h.attachment && s.current.value.size == h.size
            }
  {
  }

  /** The recorded size is always the one that the recorded writer itself claimed or resized to last. */
  lemma {:induction false} RecordedSizeIsLatest(states: seq<State>, actions: seq<Action>, j: nat)
    requires IsRun(states, actions) && j < |states| && states[j].current.Some?
    ensures exists k: nat ::
              k < j && SizeSet(actions[k]) == Some((states[j].current.value.attachment, states[j].current.value.size))
              && forall q: nat :: k < q < j ==> SizeSet(actions[q]) == None
  {
    hide Inv, Enabled, Next, SizeSet;
    assert j > 0;
    RunHolds(states, actions, j - 1);
    SizeStep(states[j - 1], actions[j - 1]);
    if SizeSet(actions[j - 1]) == None {
      RecordedSizeIsLatest(states, actions, j - 1);
    }
  }
}
