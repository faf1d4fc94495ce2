# OwlMux: a verified model

OwlMux lets several server incarnations share one PostgreSQL database and expose tmux sessions of enrolled
Machines to Browsers. This project models the parts where a mistake is hard to see, and proves what they promise
for every input, every interleaving and every run.

**Fenced Machine ownership** (`Lease`, `Durable`, `Enrollment`, `EnrollmentTimes`, `Registry`, `Cluster*`).
`Cluster` is a state machine over N nodes and one linearizable database: registration, renewal, drain, release
and configuration changes; enrollment; claims, tunnels and releases; local and remote invalidation. A
transaction commits in one step or becomes *pending*, which is an ambiguous commit: the client has lost the
answer, the deployment lock is still held, and the commit lands or is rolled back at any later point. Database
time is monotone, and for each node it advances by at most the boot-time advance plus the safety margin (the
clock assumption of the repository's README, line 36). A lease check together with the send it guards, and the
installation of a deadline, are one step each. `ClusterInvariant` is the inductive invariant,
`ClusterMembership`, `ClusterOwnership` and `ClusterInvalidation` show that every action keeps it,
`ClusterTheorems` draws the consequences over runs, and `ClusterWitness` exhibits runs, so that no theorem holds
for want of runs. `ClusterProgress` extends runs: from every reachable state with an owner an invalidation
begins whatever claims are pending and can be carried through if all of them are decided; `ClusterBlocked` shows
that an undecided one blocks it. `ClusterSingle` is about the single-node profile. `EnrollmentTimes` says which
tokens and attempts may be used when, over histories of transactions. `Lease` and `Registry` also hold the
node's objects themselves, as classes whose methods are proved against the functions the state machine uses.

**Writer coordination** (`Writer`, `WriterProtocol`). One writer pointer and one dispatch lock per route;
attachments, timeouts, lost replies and failed commands interleave freely, and the target's read-only switch is
a toggle.

**The tmux projection pipeline** (`Tmux`, `Notifications`, `PaneRows`, `WindowRows`, `Delivery`, `Control`,
`Terminal`, `Snapshot`, `Base64`, `Frames`, `Workspace`, `Browser`, `BrowserHistory`, `Installation`). A control
adapter reads an arbitrary record stream, in which any read may also fail; a pane capture is compiled to
terminal bytes; the projection is framed, parsed and validated by the Browser and reassembled, and later output
is framed after it; `Notifications` and the two `*Rows` modules read the target's formats backwards,
`BrowserHistory` states the Browser's verdicts over what it has received; `Installation.ScreenIsRestored` joins
all of it, and `PipelineWitness` gives concrete inputs to it.

**Small pieces** (`LineReader`, `ShellQuote`, `Admission`, `AdmissionBound`, `LateAdmission`).

Where a promise turned out not to hold of the code, the model keeps the code and says exactly when it does hold:

- A snapshot restores the screen if and only if the scroll region has two rows or is the whole screen, and under
  origin mode the cursor is not below the region (`Snapshot.SnapshotRestores`): a terminal ignores a one-row
  region and confines the cursor to the region. `PipelineWitness.UnrestorablePanesAreAccepted` has a row of each
  kind that the pane parser accepts.
- The queue's byte counter moves away from the queued bytes exactly when well-formed output does not fit the
  room left before the call, in bytes or in events (`Control.ControlAdapter.QueueOutput`), by at most one chunk;
  `PipelineWitness.FullQueueDrifts` reaches such a state. The counter is never behind, so the subtraction never
  saturates.
- A passing lease check can outlive the node's row for the moment between the commit of the node's own release
  and its fence (`ClusterWitness.ReleaseWindow`); in every other state it proves the lease, and what the node
  dispatches is leased even then (`ClusterTheorems.DispatchProvesLease`).
- One scope per route needs the Machine's other routes not to be requested in between
  (`Writer.SameRouteSameScope`, `WriterProtocol.ReturningRouteHasTwoDispatchers`).
- The bound of 512 admitted attempts per minute holds of all runs if and only if no instant lags behind one read
  earlier; the code reads the clock before taking the lock. With instants at most `d` late, the intervals that
  admit at most 512 are exactly those of length at most 60 s - 2`d` (`LateAdmission.SpanBoundIsExact`,
  `LateAdmission.MinuteBoundIsExact`).
- An invalidation of an owned Machine can be carried through at its owner without fencing it if and only if no
  claim pending there is undecided: with decided claims a run commits it
  (`ClusterProgress.InvalidationCompletes`), and with an undecided one no run gets a transition past waiting for
  the claims until the node is fenced (`ClusterBlocked.UndecidedClaimBlocks`);
  `ClusterProgress.ClaimsAreRefusableOrDoomed` says that there is no third case.
- The Browser accepts a hydrated projection if and only if the connection epoch is positive and
  `session_created` is a safe integer (`Installation.HeadingAccepted`).

`dafny verify dfyconfig.toml` checks the whole project.

## Model

| member | source | states |
|---|---|---|
| Lease.BootClock.Now | crates/owlmux-server/src/clock.rs:50-58 | a reading is accepted exactly when it does not precede the last accepted one; the last accepted reading never decreases |
| Lease.NodeLease.CheckNow | crates/owlmux-server/src/deployment.rs:93-107 | success is exactly an unfenced lease, an installed deadline and a valid reading strictly before it; every failure fences |
| Lease.NodeLease.Install | crates/owlmux-server/src/deployment.rs:324-339 | a deadline is installed exactly when the node is unfenced, the clock reads, the previous deadline has not passed and the new one lies ahead; otherwise the node is fenced |
| Lease.DeadlineIsFinal | crates/owlmux-server/src/deployment.rs:93-138 | once boot time has reached the installed deadline, no later check succeeds after any sequence of checks, renewals, drains and dependency changes |
| Lease.FencedIsFinal | crates/owlmux-server/src/deployment.rs:341-350 | no sequence of lease events lifts a fence |
| Lease.TimelyRunStaysUnfenced | crates/owlmux-server/src/deployment.rs:93-138 | a node whose checks and installations are all in time is never fenced, and its deadline is always the one of its last renewal |
| Lease.UntimelyEventFences | crates/owlmux-server/src/deployment.rs:324-350 | the first event that is not in time is exactly what fences a node |
| Enrollment.StepKeeps | crates/owlmux-server/src/api/mod.rs:900-940 | each enrollment and lifecycle transaction keeps the durable invariant: revisions agree, tokens only while pending and at most one issued, verifying means one open attempt or one active binding, active means a binding at the current revision and a pinned key |
| Enrollment.ReachableIsWellFormed | crates/owlmux-server/src/relay/mod.rs:1167-1393 | the invariant holds after every sequence of transactions from a created Machine, when failures carry the revision that token acceptance returned |
| Enrollment.StepForward | crates/owlmux-server/src/api/mod.rs:1285-1335 | revisions and epochs never decrease, a claim strictly raises the epoch, an invalidation strictly raises the revision, a pinned host key stays |
| Enrollment.RunForward | crates/owlmux-server/src/relay/mod.rs:1243-1313 | over whole runs revisions and epochs never decrease and the first pinned host key is the one that stays |
| Enrollment.SettledStays | crates/owlmux-server/src/relay/mod.rs:1315-1393 | a settled attempt is never reopened |
| Enrollment.LateFailureIsInert | crates/owlmux-server/src/relay/mod.rs:1315-1393 | a failure report or recovery for a settled attempt changes nothing, however many transactions ran since |
| Enrollment.BoundMachineIgnoresFailure | crates/owlmux-server/src/relay/mod.rs:1377-1393 | a late failure never undoes an activation or a newer attempt |
| Enrollment.ClaimIsExact | crates/owlmux-server/src/relay/mod.rs:1406-1469 | on a well-formed row a claim commits exactly at the current revision with an active binding, no valid owner and room in the epoch; its further tests follow from the invariant |
| Enrollment.InvalidationIsExact | crates/owlmux-server/src/api/mod.rs:1245-1335 | on a well-formed row an invalidation commits exactly for an active Machine at the expected revision and owner, and then no token, attempt, binding or owner is left |
| EnrollmentTimes.IssueIsExact | crates/owlmux-server/src/api/mod.rs:1417-1466 | a token is issued exactly for a pending Machine and is then the only outstanding one |
| EnrollmentTimes.CancellationIsExact | crates/owlmux-server/src/api/mod.rs:1466-1510 | a cancellation commits exactly when a token is outstanding, and none is afterwards |
| EnrollmentTimes.AcceptedIffOutstanding | crates/owlmux-server/src/relay/mod.rs:1167-1243 | over any history a token opens an attempt exactly when the Machine is pending and an issue of the token, less than 900 seconds old, has not been cancelled, reissued, accepted or invalidated since |
| EnrollmentTimes.AcceptanceIsTimely | crates/owlmux-server/src/relay/mod.rs:1184-1192 | with times in order an attempt is opened only within the 900 seconds after an issue that still stands |
| EnrollmentTimes.OpenIffUnsettled | crates/owlmux-server/src/relay/mod.rs:1315-1393 | an attempt is open exactly when an acceptance opened it and no activation, failure report, due recovery or invalidation has settled it since; its executor and deadline never change |
| EnrollmentTimes.ActivationIsExact | crates/owlmux-server/src/relay/mod.rs:1243-1313 | an activation commits exactly when its own executor opened the attempt less than 120 seconds ago, nothing has settled it, revision, evidence and host key agree and the binding is new |
| EnrollmentTimes.ActivationIsTimely | crates/owlmux-server/src/relay/mod.rs:1256-1263 | an attempt is activated only by its executor and before 120 seconds have passed since a token opened it |
| EnrollmentTimes.RecoveryIsTimely | crates/owlmux-server/src/relay/mod.rs:1315-1375 | a recovery fails an open attempt exactly from 120 seconds after its opening on, and changes nothing before |
| Registry.TunnelHandle.DispatchWork | crates/owlmux-server/src/relay/mod.rs:471-478 | work is admitted exactly when the node's lease check passes on the clock reading and the barrier is open; a failing check fences the node, even behind a closed barrier |
| Registry.RelayRegistry.ReserveClaim | crates/owlmux-server/src/relay/mod.rs:395-414 | a reservation is made exactly when the node is ready and the Machine has no tunnel, no exit record and not this claim; other Machines are untouched |
| Registry.RelayRegistry.InstallReserved | crates/owlmux-server/src/relay/mod.rs:416-441 | a tunnel is installed exactly when its reservation survived and nothing else holds the Machine, and consumes the reservation |
| Registry.RelayRegistry.CompletePending | crates/owlmux-server/src/relay/mod.rs:443-453 | only the named reservation is given up |
| Registry.RelayRegistry.BeginMachineTransition | crates/owlmux-server/src/relay/mod.rs:277-316 | whatever claims are pending, the transition begins exactly when the Machine's tunnel has the named route and no exit is recorded; then the handle leaves the map, the exit is recorded, and the claims to wait for are exactly the pending ones |
| Registry.RelayRegistry.FinishMachineTransition | crates/owlmux-server/src/relay/mod.rs:318-330 | the Machine's tunnel is removed and only this transition's exit record cleared |
| Registry.RelayRegistry.BeginOwnerRelease | crates/owlmux-server/src/relay/mod.rs:157-173 | releases when there is no exit record, defers to its own transition, refuses otherwise |
| Registry.RelayRegistry.FinishOwnerRelease | crates/owlmux-server/src/relay/mod.rs:175-180 | only this route's tunnel and release record are removed |
| Registry.RelayRegistry.CloseAll | crates/owlmux-server/src/relay/mod.rs:263-275 | every tunnel leaves the map and every removed handle is closed |
| ClusterMembership.MembershipKeeps | crates/owlmux-server/src/deployment.rs:145-350 | clock ticks, registration, renewal with any outcome, drain, release and configuration transitions keep the cluster invariant |
| ClusterOwnership.OwnershipKeeps | crates/owlmux-server/src/relay/mod.rs:883-1032 | every step of a tunnel task (reserve, claim, install, withdraw, close, release, with ambiguous commits) keeps the cluster invariant |
| ClusterInvalidation.InvalidationKeeps | crates/owlmux-server/src/internal.rs:560-620 | every step of a local or remote invalidation, under message loss and ambiguous commits, keeps the cluster invariant |
| ClusterInvalidation.OwnerTestsAgree | crates/owlmux-server/src/api/mod.rs:1245-1284 | the stricter owner-validity test of invalidation agrees with the one used by claims |
| ClusterTheorems.RunHolds | crates/owlmux-server/src/relay/mod.rs:1406-1520 | the invariant holds in every state of every run |
| ClusterTheorems.DispatcherIsOwner | crates/owlmux-server/src/relay/mod.rs:1406-1469 | a node whose check passes and whose tunnel is open is exactly the durable owner: incarnation, connection, epoch and revision |
| ClusterTheorems.OneDispatcher | crates/owlmux-server/src/relay/mod.rs:470-517 | in every reachable state at most one node dispatches for a Machine, over one route |
| ClusterTheorems.CheckProvesLease | crates/owlmux-server/src/deployment.rs:292-339 | a passing local check proves an unexpired database lease, except after the node's own release has committed |
| ClusterTheorems.DispatchProvesLease | crates/owlmux-server/src/deployment.rs:196-239 | whatever a node dispatches rests on its own unexpired lease, without exception |
| ClusterTheorems.TimelyRenewalInstalls | crates/owlmux-server/src/deployment.rs:292-339 | a granted renewal handled before the old and the new deadline leaves a node whose check passes |
| ClusterTheorems.LeasedRowsAreCurrent | crates/owlmux-server/src/storage.rs:138-176 | every unexpired node row carries the stored configuration epoch and build |
| ClusterTheorems.RowsAreWellFormed | crates/owlmux-server/src/relay/mod.rs:1167-1393 | every Machine row of every reachable cluster state satisfies the enrollment invariant |
| ClusterTheorems.TransitionIsQuiet | crates/owlmux-server/src/relay/mod.rs:277-330 | from the return of the transition's beginning until its finish there is no tunnel, no pending claim and no new reservation |
| ClusterTheorems.ReleaseIsNeverRefused | crates/owlmux-server/src/relay/mod.rs:981-1013 | a closing tunnel finds no exit record or its own transition, so the refusing branch is unreachable |
| ClusterTheorems.RowsMoveForward | crates/owlmux-server/src/relay/mod.rs:1430-1437 | over any run segment epochs and revisions never decrease, and within an epoch the owner can only be cleared |
| ClusterTheorems.TenureIsUnbroken | crates/owlmux-server/src/relay/mod.rs:1486-1497 | if an owner is named at two points it was named throughout, so no route identity recurs |
| ClusterTheorems.ClaimsClimb | crates/owlmux-server/src/api/mod.rs:1270-1337 | connection epochs strictly increase over all claims of a Machine |
| ClusterTheorems.TransitionsEndOnRecord | crates/owlmux-server/src/relay/mod.rs:195-234 | no prepared transition disappears: each step keeps it or records its end |
| ClusterTheorems.EndedInvalidationIsSafe | crates/owlmux-server/src/api/mod.rs:992-1353 | however a prepared invalidation ended, from then on its owner is fenced or the durable row no longer names the prepared route |
| ClusterTheorems.AmbiguousCommitIsClassified | crates/owlmux-server/src/api/mod.rs:1138-1215 | the read after an ambiguous commit sees the old rows as aborted and the written rows as committed |
| ClusterProgress.InvalidationCompletes | crates/owlmux-server/src/relay/mod.rs:277-330 | from every reachable state in which a node owns a Machine over a tunnel without exit record and the lock is free, whatever decided claims are pending, a run commits the invalidation: requested lifecycle, next revision, no owner, and the owner has let go without being fenced |
| ClusterProgress.InvalidationFences | crates/owlmux-server/src/relay/mod.rs:883-979 | with an undecided claim pending, a run ends the transition with its owner fenced |
| ClusterProgress.ClaimsAreRefusableOrDoomed | crates/owlmux-server/src/relay/mod.rs:883-979 | the two cases are exhaustive: a claim blocks the first exactly when it is undecided |
| ClusterBlocked.UndecidedClaimBlocks | crates/owlmux-server/src/relay/mod.rs:883-1032 | with an undecided claim pending at a Machine's owner, over any run no transition of the Machine gets past waiting for its claims unless the node is fenced |
| ClusterProgress.MachineIsDisabled | crates/owlmux-server/src/api/mod.rs:992-1353 | a run from the initial state through a committed invalidation that starts while a second claim is pending |
| ClusterSingle.OneNodeServes | crates/owlmux-server/src/deployment.rs:255-264 | under the single-node profile at most one node with a row passes its check in any reachable state, although an expired lease may still be renewed |
| ClusterSingle.OneNodeDispatches | crates/owlmux-server/src/deployment.rs:255-264 | under the single-node profile at most one node dispatches, for all Machines together |
| ClusterWitness.ReleaseWindow | crates/owlmux-server/src/deployment.rs:196-239 | a run in which a check still passes between the commit of the node's release and its fence |
| ClusterWitness.Dispatches | crates/owlmux-server/src/relay/mod.rs:883-979 | a run that reaches an open dispatch, so exclusive ownership is not vacuous |
| Writer.WriterState.SetCurrent | crates/owlmux-server/src/writer.rs:154-166 | the pointer is replaced and observers are notified |
| Writer.WriterState.ClearIfCurrent | crates/owlmux-server/src/writer.rs:205-213 | the pointer is cleared only for its holder, and observers are notified exactly then |
| Writer.WriterState.SetControl | crates/owlmux-server/src/writer.rs:168-181 | only the recorded attachment's control changes, and the result says whether it was recorded |
| Writer.WriterState.UpdateSize | crates/owlmux-server/src/writer.rs:194-203 | only the recorded attachment's size changes, and the result says whether it was recorded |
| Writer.WriterState.Clear | crates/owlmux-server/src/writer.rs:214-218 | the pointer is cleared for everybody, and observers are notified exactly when there was a writer |
| Writer.WriterState.ClearControl | crates/owlmux-server/src/writer.rs:183-192 | only the holder's control is dropped; the pointer stays |
| Writer.WriterRegistry.ScopeFor | crates/owlmux-server/src/writer.rs:237-247 | the scope of the requested route, replacing a scope of another route |
| Writer.SameRouteSameScope | crates/owlmux-server/src/writer.rs:231-261 | two requests for a route share a scope exactly when no other route of the Machine was requested in between |
| WriterProtocol.StepKeeps | crates/owlmux-server/src/attachment.rs:628-738 | every step of every attachment keeps the protocol invariant: who is recorded, what is queued, which client the target lets write |
| WriterProtocol.RunHolds | crates/owlmux-server/src/attachment.rs:741-930 | the protocol invariant holds in every state of every run |
| WriterProtocol.DispatchIsByTheWriter | crates/owlmux-server/src/attachment.rs:933-1298 | every target operation of every run is sent by the recorded writer, the only possible dispatcher, through the recorded client, which is writable unless told to close |
| WriterProtocol.FormerWriterIsSilent | crates/owlmux-server/src/attachment.rs:1304-1502 | after losing the pointer an attachment dispatches nothing until a claim of its own has completed |
| WriterProtocol.WriterIsDisplacedOnlyByTakeover | crates/owlmux-server/src/attachment.rs:670-738 | over any run a recorded writer stops being it only by leaving, by a step that fails closed and leaves nobody, or by a completed claim that another attachment started with takeover |
| WriterProtocol.PlainClaimFindsNobody | crates/owlmux-server/src/attachment.rs:681-690 | a claim without takeover completes only if nobody was recorded when it started and when it ends |
| WriterProtocol.TakeoverDisplaces | crates/owlmux-server/src/attachment.rs:670-738 | a run in which a takeover replaces the recorded writer |
| WriterProtocol.RecordedSizeIsLatest | crates/owlmux-server/src/writer.rs:154-203 | the recorded size is the one the recorded writer claimed or resized to last |
| WriterProtocol.StrayWriterIsClosing | crates/owlmux-server/src/attachment.rs:1793-1810 | in all runs a writable client that is not the recorded one is being promoted under the lock, is ending, or has a Close queued |
| WriterProtocol.WritableIffRecorded | crates/owlmux-server/src/tmux.rs:215-232 | with the lock free, a client nothing tells to return is writable exactly when recorded, although the switch is a toggle |
| WriterProtocol.SmoothRunIsExact | crates/owlmux-server/src/attachment.rs:741-852 | in runs whose transition outcomes all succeed, exactly the recorded writer's client is writable |
| WriterProtocol.RouteHasOneDispatcher | crates/owlmux-server/src/attachment.rs:513-611 | attachments served for one route dispatch one at a time when the route's scope was not replaced in between |
| WriterProtocol.ReturningRouteHasTwoDispatchers | crates/owlmux-server/src/writer.rs:237-247 | without that condition two scopes of one route each have a dispatcher |
| Tmux.DecodeEscaped | crates/owlmux-server/src/tmux.rs:1224-1255 | the loop computes the recursive unescaping, and rejects exactly what that rejects |
| Tmux.UnescapeInvertsEscape | crates/owlmux-server/src/tmux.rs:1224-1255 | decoding gives back every byte string escaped the way the target does |
| Notifications.OutputParses | crates/owlmux-server/src/tmux.rs:787-805 | the plain output record of any pane and bytes is parsed as exactly these |
| Notifications.AgedOutputParses | crates/owlmux-server/src/tmux.rs:787-805 | the extended output record of any pane, age and bytes is parsed as exactly that pane and those bytes |
| Notifications.OutputIsExact | crates/owlmux-server/src/tmux.rs:787-805 | a record is output of a pane exactly when it has one of the two forms and its escapes decode to these bytes |
| Notifications.OthersAreExact | crates/owlmux-server/src/tmux.rs:780-833 | which records end the adapter, ask for a refresh or are of no concern, each exactly; all others are refused |
| Notifications.StreamDelivers | crates/owlmux-server/src/tmux.rs:780-833 | whatever output, guarded responses and other notifications a target interleaves, each pane is delivered exactly the bytes written for it, in order |
| Tmux.ParsePaneRow | crates/owlmux-server/src/tmux.rs:952-1004 | an accepted pane lies inside its window, its cursor and region inside the pane, and under origin mode its cursor not above the region |
| Tmux.ParseWindows | crates/owlmux-server/src/tmux.rs:413-456 | an accepted window list has 1 to 128 distinct well-formed windows, exactly one active |
| Tmux.ParseWindow | crates/owlmux-server/src/tmux.rs:459-507 | an accepted active window has a well-formed identity, layout and a grid within the limits |
| WindowRows.WindowRowParses | crates/owlmux-server/src/tmux.rs:459-507 | the row of every well-formed window is accepted as exactly that window, and refused as changed for another session or creation time |
| WindowRows.WindowListParses | crates/owlmux-server/src/tmux.rs:413-456 | every well-formed window list is accepted from its rows as exactly that list |
| Tmux.ParsePaneRows | crates/owlmux-server/src/tmux.rs:924-950 | a list is accepted exactly when every row is, and the panes are distinct, one active, within the pane and grid limits |
| PaneRows.RowParses | crates/owlmux-server/src/tmux.rs:952-1004 | every well-formed pane inside its window has a row that the parser accepts as exactly that pane |
| Delivery.ChunksKeepBytes | crates/owlmux-server/src/tmux.rs:845-857 | chunking keeps every decoded byte, in order and under its own pane only |
| Delivery.EventsDeliver | crates/owlmux-server/src/tmux.rs:780-858 | the events queued for one notification carry exactly its output |
| Delivery.ArrivedDelivers | crates/owlmux-server/src/tmux.rs:780-833 | what the records queue for a pane is exactly the decoded output they announce for it outside guarded responses |
| Delivery.KeptKeeps | crates/owlmux-server/src/tmux.rs:882-893 | discarding one pane's output removes all of it and nothing else |
| Delivery.LiveAdvances | crates/owlmux-server/src/tmux.rs:730-778 | no interleaving of later notifications loses or repeats output of a pane already cut over |
| Control.ControlAdapter.QueueOutput | crates/owlmux-server/src/tmux.rs:835-858 | output is queued whole exactly when pane and escapes are well-formed and bytes and chunks fit the room left before the call; the counter moves away from the queue exactly when well-formed output does not fit, by at most one chunk |
| Control.ControlAdapter.IngestNotification | crates/owlmux-server/src/tmux.rs:780-833 | a record is accepted exactly when it is known and finds room before the call, and then queues exactly its events; the counter moves away from the queue exactly when output is known and finds none |
| Control.ControlAdapter.PumpEvent | crates/owlmux-server/src/tmux.rs:193-196 | success reads one notification and queues exactly what it announces |
| Control.ControlAdapter.ReadResponse | crates/owlmux-server/src/tmux.rs:730-778 | success returns exactly the payload between matching begin and end markers and queues exactly the notifications before it; a target failure only on a matching error marker; reading stops within the record budget on any stream |
| Control.ControlAdapter.PopEvent | crates/owlmux-server/src/tmux.rs:868-874 | the first event leaves the queue and the counter drops by exactly its size, never saturating |
| Control.ControlAdapter.DiscardCapturedOutput | crates/owlmux-server/src/tmux.rs:676-678 | only the captured pane's output leaves the queue and the counter becomes exact |
| Control.ControlAdapter.RequireStableCutover | crates/owlmux-server/src/tmux.rs:660-674 | success exactly when neither a refresh nor an exit was queued, and then the queue is empty |
| Control.ControlAdapter.CaptureBarrier | crates/owlmux-server/src/tmux.rs:595-629 | the first response is the capture, the second the one-line metadata, and in between the pane delivered nothing |
| Control.ControlAdapter.CapturePane | crates/owlmux-server/src/tmux.rs:574-590 | only the terminal state of the pane changes, its snapshot renders the capture and fits the room left, and only its own covered output is discarded |
| Control.ControlAdapter.CapturePanes | crates/owlmux-server/src/tmux.rs:567-593 | every pane is cut over and stays exact while the others are captured; sizes stay within the limits |
| Control.ControlAdapter.RequireLiveCutover | crates/owlmux-server/src/tmux.rs:680-696 | success exactly when no exit and no refresh is queued |
| Control.ControlAdapter.ObserveWindows | crates/owlmux-server/src/tmux.rs:413-456 | the windows are those of one whole response |
| Control.ControlAdapter.ObserveWindow | crates/owlmux-server/src/tmux.rs:459-507 | geometry and name come from two consecutive whole responses |
| Control.ControlAdapter.ObservePanes | crates/owlmux-server/src/tmux.rs:509-520 | the panes are exactly those of one whole response, inside the window |
| Control.ControlAdapter.ObservePaneLabels | crates/owlmux-server/src/tmux.rs:522-543 | labels are bounded control-free text and nothing else about a pane changes |
| Control.ControlAdapter.RevalidateProjection | crates/owlmux-server/src/tmux.rs:631-658 | success means the same panes were observed again with the same structure, and nothing but notifications was queued |
| Control.ControlAdapter.HydrateOnce | crates/owlmux-server/src/tmux.rs:310-411 | one attempt establishes what hydration promises |
| Control.ControlAdapter.Hydrate | crates/owlmux-server/src/tmux.rs:172-187 | after success, for every visible pane the snapshot renders its capture response under terminal state observed with no output in between, the queue holds exactly the output delivered after the capture, no refresh or exit is queued, the counter is exact and the projection well-formed |
| Snapshot.CaptureLines | crates/owlmux-server/src/tmux.rs:1015-1081 | the emitted bytes are prologue, rows, region, cursor and modes, and are refused exactly when longer than the bound |
| Snapshot.CursorRow | crates/owlmux-server/src/tmux.rs:1040-1044 | the origin-relative row of an accepted pane never underflows |
| Snapshot.SnapshotShows | crates/owlmux-server/src/tmux.rs:1015-1081 | what any terminal of the pane's size shows after the snapshot, from whatever state it was in |
| Snapshot.SnapshotRestores | crates/owlmux-server/src/tmux.rs:952-1085 | the captured rows, region, seven modes and absolute cursor are restored if and only if the region is usable and holds the cursor under origin mode |
| Base64.ForgivingInvertsEncode | apps/web/src/attachment.ts:162-184 | decoding gives back every encoded byte string |
| Base64.DecodeIffEncoded | apps/web/src/attachment.ts:162-184 | the strict decoder yields given bytes exactly from their encoding, within its limits |
| Base64.SymbolIsAlphabet | apps/web/src/attachment.ts:180-184 | each sextet is written as the letter at its place in the 64-letter URL-safe alphabet |
| Base64.TestVectors | apps/web/src/attachment.ts:180-184 | the encodings of section 10 of RFC 4648 without padding, and of the two last letters |
| Workspace.Attachment.InstallProjection | crates/owlmux-server/src/attachment.rs:1660-1765 | on success the frames sent are Connecting, the heading, every snapshot's chunks and Ready, no snapshot is refused for its size, and every pane is still exactly cut over after all notifications read meanwhile |
| Workspace.Attachment.SendWithControl | crates/owlmux-server/src/attachment.rs:2171-2192 | a frame over the bound is refused; otherwise it is sent once and the records read meanwhile only queue their notifications |
| Workspace.Attachment.ForwardQueued | crates/owlmux-server/src/attachment.rs:907-927 | without a queued exit the queue is emptied and exactly the output of visible panes is framed, in order; a refresh is remembered |
| Frames.ChunksJoin | crates/owlmux-server/src/attachment.rs:1721-1754 | chunks concatenate to the snapshot and are as few as the chunk size allows |
| Frames.SnapshotFrameFits | crates/owlmux-server/src/attachment.rs:2171-2179 | every snapshot frame fits the 32768-byte frame bound |
| Frames.OutputFrameFits | crates/owlmux-server/src/attachment.rs:909-913 | every output frame of a queued chunk fits the frame bound |
| Browser.ParseProjection | apps/web/src/attachment.ts:253-372 | the loops accept exactly the projections that meet every condition |
| Browser.ParseSummaries | apps/web/src/attachment.ts:287-303 | accepts exactly lists of well-formed windows with distinct identities, and counts the active ones |
| Browser.ParsePanes | apps/web/src/attachment.ts:317-358 | accepts exactly panes inside the window with distinct identities, and counts active panes and cells |
| Browser.Session.ValidateSequence | apps/web/src/client.ts:286-367 | each frame changes the validator and is accepted, ignored or refused as specified |
| BrowserHistory.VerdictIsExpected | apps/web/src/client.ts:286-367 | over arbitrary frame histories, without the validator's state: output is shown exactly under the last completed projection of that epoch and pane, a writer state counts exactly for the last heading, a projection is refused exactly for a connection not listed last, chunks and Ready exactly when they do not continue or complete it |
| Installation.AcceptKeepsTracked | apps/web/src/client.ts:338-362 | after every accepted frame the validator's counters equal what was received since the projection |
| Installation.ReadyIsComplete | apps/web/src/client.ts:294-304 | whatever the server sends, an accepted Ready means every pane has chunks 0..n-1 with exactly the last one final, within the limits |
| Installation.HeadingAccepted | apps/web/src/attachment.ts:253-372 | a hydrated projection is accepted exactly when the connection epoch is positive and session_created a safe integer |
| Installation.InstallationAccepted | crates/owlmux-server/src/attachment.rs:1660-1765 | a Browser holding the connection epoch accepts every emitted frame and ends showing the projection's panes |
| Installation.InstallationReassembles | crates/owlmux-server/src/attachment.rs:1721-1754 | at Ready what the Browser put together for each pane is that pane's snapshot |
| Installation.OutputsAccepted | crates/owlmux-server/src/attachment.rs:907-914 | forwarded output frames are all accepted after Ready and decode to exactly what was queued for each visible pane |
| Installation.ScreenIsRestored | crates/owlmux-server/src/tmux.rs:567-629 | end to end: the Browser accepts the installation and the forwarded output, the reassembled snapshot restores the captured screen exactly when the pane is restorable, and the decoded live output is exactly what was delivered after the capture |
| PipelineWitness.PipelineIsInhabited | crates/owlmux-server/src/tmux.rs:595-629 | a concrete stream, projection and terminal that meet everything the end-to-end theorem asks for |
| PipelineWitness.UnrestorablePanesAreAccepted | crates/owlmux-server/src/tmux.rs:985-989 | rows with a one-row region, or with the cursor below the region under origin mode, are accepted and no terminal shows their screen |
| PipelineWitness.FullQueueDrifts | crates/owlmux-server/src/tmux.rs:845-857 | a reachable adapter whose counter is ahead of its full queue |
| LineReader.Reader.ReadLine | crates/owlmux-server/src/ssh.rs:618-649 | over a script of fragments, cancellations and failures the outcome is decided by the pending bytes and those to come: the next line whenever it ends before anything goes wrong and fits, a refusal exactly when it is too long, otherwise what went wrong; returned lines and pending bytes stay the exact split of what was taken |
| LineReader.SplitIsExact | crates/owlmux-server/src/ssh.rs:571-587 | splitting loses nothing and cuts exactly after newlines |
| LineReader.SplitIsUnique | crates/owlmux-server/src/ssh.rs:618-649 | there is no other way to cut a stream into newline-terminated lines |
| ShellQuote.LiteralIsOneWord | crates/owlmux-server/src/ssh.rs:1052-1057 | a POSIX shell reads the literal as one word equal to the original, whatever delimiter and text follow |
| ShellQuote.CommandLineRoundTrips | crates/owlmux-server/src/ssh.rs:752-757 | a line of literals is read back as exactly its arguments |
| Admission.SourceAdmission.TryAcquire | crates/owlmux-server/src/service.rs:173-200 | admits exactly within the source, active and attempt limits, with expired idle entries retired first |
| Admission.SourceAdmission.DropPermit | crates/owlmux-server/src/service.rs:204-211 | gives one active slot back |
| Admission.RunCounts | crates/owlmux-server/src/service.rs:173-211 | in every run active counts equal live permits and are at most 4, and at most 4096 sources are tracked |
| Admission.DropIsExact | crates/owlmux-server/src/service.rs:204-211 | a live permit always finds its entry and its drop lowers the count by exactly one |
| AdmissionBound.SpanIsBounded | crates/owlmux-server/src/service.rs:173-200 | with instants at most d late, every half-open interval of at most 60 s - 2d admits at most 512 attempts of a source |
| AdmissionBound.MinuteIsBounded | crates/owlmux-server/src/service.rs:173-200 | with instants in lock order every half-open minute admits at most 512 attempts of a source |
| LateAdmission.LateInstantsBreakTheBound | crates/owlmux-server/src/service.rs:173-175 | for every longer interval there is a run with no instant later than d that admits more than 512 |
| LateAdmission.SpanBoundIsExact | crates/owlmux-server/src/service.rs:173-200 | the bound of 512 holds of all runs with lag at most d exactly for intervals of length at most 60 s - 2d, and empty ones |
| LateAdmission.MinuteBoundIsExact | crates/owlmux-server/src/service.rs:173-175 | the minute's bound holds of all runs with lag at most d exactly when d is 0 |

## Left out

- Cryptography, API keys, TLS and audit records: authentication is taken as already decided.
- SQL text, pools and migrations: a transaction is one function on rows; the restricting foreign key from owner rows to node rows is part of the release of a node.
- Liveness: runs that carry an invalidation through are exhibited from every reachable state, but nothing is claimed about relays reconnecting, leases expiring or locks being released in time.
- Relay stream multiplexing, process spawning, OpenSSH arguments and file custody.
- React components, terminal rendering beyond the sequences a snapshot uses, and the Browser's count of pending operations.
- Database transactions are functions on values, not methods, since they are atomic; the recovery of expired attempts is modelled one attempt at a time, and `close_all` one Machine at a time inside the state machine.
- Enrollment.ReachableIsWellFormed: failure reports carry the revision that token acceptance returned, as their only caller does; evidence checks of an activation are one boolean.
- ClusterTheorems.CheckProvesLease: does not cover the moment after a node's own release has committed, because the code deletes the row before it fences.
- WriterProtocol.StepKeeps: the abrupt abort of an attachment task at server shutdown is not modelled, and a control channel holds any number of directives instead of four.
- Tmux.DecodeEscaped: eight-bit arithmetic wraps, as in a release build; a debug build stops instead.
- Control.ControlAdapter.ReadResponse: guard markers are split at ASCII white space only, and the byte counters are unbounded integers.
- Control.ControlAdapter.Hydrate: the text of the commands sent is left out, because responses are arbitrary anyway.
- Snapshot.SnapshotRestores: rows are printable ASCII; colours and wide characters are left out.
- Workspace.Attachment.InstallProjection: the length of the heading's text is a parameter, because its spelling is not modelled; what a failed attempt has already sent is not described.
- Browser.ParseProjection: key sets and the spelling of identifiers are left out, since frames are typed here.
