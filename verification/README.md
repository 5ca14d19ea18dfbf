# Verification of the console's dispatch, task and session protocols

The console accepts tasks from clients and dispatches them as commands to connected workers; workers
keep terminal sessions, each in its own container. This project models the state machines behind that
and proves what they keep, for every interleaving of the goroutines involved.

The model has two layers that share their definitions. Functions give the effect of one lock section,
one SQL statement or one compare-and-swap on plain values. Classes hold the same fields as the
program's structs, and their methods are the program's code, proved to have exactly those effects.
State machines then let any number of callers interleave, one such effect per step, and the main
results are invariants and theorems over all their runs. Where a method runs while other goroutines
may interfere, it takes a parameter `quiet`: with `quiet` false the contract holds whatever the others
do between its lock sections, with `quiet` true it says exactly what an undisturbed call does. Ghost
fields keep the history of the caller's own actions, an account of slots taken minus slots given back and
the terminal writes made, which nobody else touches; so a contract can say what one call has done whoever
interferes.

| file | what it models |
|---|---|
| `Prelude.dfy`, `Text.dfy` | options and results, counting map entries, white-space trimming |
| `SessionRuntime.dfy` | one worker connection: capability slots, pending commands, close |
| `Throttle.dfy`, `Routes.dfy` | throttled pruning, the terminal-session routing table |
| `Scheduler.dfy`, `SessionPicker.dfy` | choosing a session, the reserve-and-retry routing protocol |
| `Dispatch.dfy`, `DispatchSlots.dfy`, `DispatchDelivery.dfy`, `DispatchRouting.dfy`, `DispatchTheorems.dfy` | all dispatches, worker results and closes interleaving |
| `DispatchHistory.dfy`, `DispatchRollback.dfy`, `DispatchNet.dfy` | what holds between moments of one run: sticky routes, rollbacks, each dispatch's account of slots |
| `DispatchAnswers.dfy`, `DispatchOrigins.dfy`, `DispatchSessions.dfy` | what a dispatch returns and where that comes from; what connections offer, and how they close and replace each other |
| `Tasks.dfy`, `TaskRuns.dfy`, `TaskWaiters.dfy`, `TaskSignals.dfy` | task rows, executors, cancels, waiting submits, store failures |
| `TaskAnswers.dfy` | what submits and cancels are told, what rows say, and who wrote it |
| `Containers.dfy`, `ContainerRuns.dfy` | terminal sessions on a worker, leases, janitor, container ownership |
| `ContainerAnswers.dfy` | what a call answers and does to its session, given the table at its claim and what docker did |
| `Provisioning.dfy`, `ProvisioningRuns.dfy` | creating workers; at most one worker-sys per owner |
| `OwnerScope.dfy` | owner scoping of session IDs and request keys |
| `ShellCommand.dfy` | the printed start-up command, read back by POSIX shell rules |

Assumptions used throughout: command, session-object, task, container and generated worker IDs are
fresh; node IDs are trimmed and not blank; capability names are already normalised; clocks, random
generators, docker and the worker's answers are arbitrary inputs of the steps.

Four findings, each a property that holds only under a condition, which is proved to be the exact one:

- Scoped session IDs of different owners are kept apart exactly when neither owner's name continues the
  other's past a colon (`OwnerScope.CrossOwnerExactly`, with a collision in `OwnerScope.ScopeCollides`).
  The account IDs that the program generates are a fixed prefix and hex digits
  (`console/internal/httpapi/console_auth.go:19`, `console_auth_account.go:250-256`) and its built-in owner
  is `system`: none has a colon, so for them `OwnerScope.ColonFreeOwnersAreApart` applies and the collision
  cannot arise.
- Two requests share a reservation key exactly if they are one request of one owner, or one owner's name is the
  other's continued past a NUL, the separator of the key (`OwnerScope.KeysMeetExactly`, with a collision in
  `OwnerScope.KeyCollides`). No generated or built-in owner has one, so for them
  `OwnerScope.KeysTellRequestsApart` applies.
- A runtime record is released exactly if, when it is published, its task is live or a cancel is between
  its look at the row and its visit to the record, or else the executor's first statement fails
  (`TaskSignals.ReleasedExactly`). A cancel that is through between the insert of the row and the
  publishing would therefore leak the record (`TaskSignals.EarlyCancelLeaksRecord`). No client can bring
  that about: a task ID is random and is first told to anybody when `SubmitTask` returns, after the
  publishing (`task.go:196` and `task.go:247`). The run shows that the code relies on this; with it every
  record is released (`TaskSignals.RecordsAreReleased`).
- The flag by which a failed dispatch decides to take its route back says that it once made a route, not
  that the route is still its own. It takes back its own route exactly if it made one that has not ended
  since; if that one has ended and another dispatch has made a route to the same node, it takes that one
  (`DispatchHistory.RollbackTakesItsOwnRouteExactly`, with a run in
  `DispatchRollback.RollbackTakesAnothersRoute`).

## Model

| member | source | states |
|---|---|---|
| `SessionRuntime.ActiveSession.HasCapability` | console/internal/grpcserver/session_runtime.go:61-70 | true exactly for a non-blank name the session offers |
| `SessionRuntime.ActiveSession.InflightSnapshot` | console/internal/grpcserver/session_runtime.go:72-89 | reports limit and use, and changes at most a missing limit into 4 |
| `SessionRuntime.ActiveSession.TryAcquireCapability` | console/internal/grpcserver/session_runtime.go:118-137 | takes one slot exactly when one is free, and touches nothing else |
| `SessionRuntime.ActiveSession.ReleaseCapability` | console/internal/grpcserver/session_runtime.go:139-153 | gives one slot back, never below zero |
| `SessionRuntime.AcquireRelease` | console/internal/grpcserver/session_runtime.go:118-153 | a release undoes an acquire for every capability |
| `SessionRuntime.ActiveSession.RegisterPending` | console/internal/grpcserver/session_runtime.go:180-200 | registers a fresh command exactly when the ID is not blank and the session is open; the error says which |
| `SessionRuntime.ActiveSession.UnregisterPending` | console/internal/grpcserver/session_runtime.go:202-223 | removes one entry, gives back its slot, closes its channel bare; otherwise changes nothing |
| `SessionRuntime.ActiveSession.ResolvePending` | console/internal/grpcserver/session_runtime.go:225-273 | removes the frame's own entry, gives back its slot and delivers its outcome; unknown IDs change nothing |
| `SessionRuntime.ActiveSession.Close` | console/internal/grpcserver/session_runtime.go:275-300 | every pending command gets the close reason and gives back one slot; a second close changes nothing |
| `SessionRuntime.DrainOne` | console/internal/grpcserver/session_runtime.go:289-299 | draining one more entry lowers exactly its capability's count by one |
| `SessionRuntime.FramesSay` | console/internal/grpcserver/session_runtime.go:239-268 | the outcome of a frame: its payload if it has no error, else its own code and text; this determines it |
| `SessionRuntime.FirstCloseWins` | console/internal/grpcserver/session_runtime.go:302-315 | a result channel keeps the first of two outcomes |
| `DispatchTheorems.StepKeepsInv` | console/internal/grpcserver/service_dispatch.go:80-188 | the joint invariant of slots, delivery and routing is kept by every step of every goroutine |
| `DispatchTheorems.SlotsAreConserved` | console/internal/grpcserver/session_runtime.go:118-300 | in every interleaving a capability's inflight count is the dispatchers past acquire plus pending entries plus removers yet to release, within 0..maxInflight |
| `DispatchTheorems.ReleaseIsNeverClamped` | console/internal/grpcserver/session_runtime.go:139-153 | every release finds a count above zero, so its guard is never needed |
| `DispatchTheorems.QuietMeansZero` | console/internal/grpcserver/service_dispatch.go:105-130 | when every dispatch has returned and every remover is done, each count is zero and nothing is pending |
| `DispatchTheorems.DeliveredExactlyOnce` | console/internal/grpcserver/session_runtime.go:180-315 | each command is removed once, finished once and yields at most one outcome, none only if its dispatcher removed it |
| `DispatchTheorems.ReceivesItsOwn` | console/internal/grpcserver/service_dispatch.go:167-187 | a dispatcher that receives finds a value, and it is its own command's outcome or its session's close reason |
| `DispatchAnswers.RepliesAreDecidedOnce` | console/internal/grpcserver/service_dispatch.go:80-188 | a dispatch that has returned has decided its reply at exactly one of its steps, by what it found there, and returns this one |
| `DispatchAnswers.ReceivedIsReturned` | console/internal/grpcserver/service_dispatch.go:172-187 | a dispatcher that has taken an outcome out of its channel returns this outcome, whatever happens in between |
| `DispatchAnswers.WaitIsAnswered` | console/internal/grpcserver/service_dispatch.go:167-187 | a dispatch whose command is with the worker returns what it takes out of its own channel, or its caller's context error only if its wait ended first |
| `DispatchAnswers.ReturnsWhatItReceived` | console/internal/grpcserver/service_dispatch.go:167-187 | a dispatch returns an outcome exactly if a command that it registered has given it this very outcome and no other |
| `DispatchOrigins.RepliesComeFromTheWorker` | console/internal/grpcserver/session_runtime.go:225-315 | a dispatch returns an answer or a failure only if a frame of the session its command was registered with says so, payload and all, and a lost session only if that session was closed for this reason |
| `DispatchOrigins.RoutesAreFollowed` | console/internal/grpcserver/service_dispatch.go:190-261 | a dispatch goes for the node its route names, and there for the current session exactly if that offers the capability; a stale route is cleared exactly if it still names the node found wanting |
| `DispatchOrigins.NoWorkerTakesTwoTries` | console/internal/grpcserver/service_dispatch.go:242-261 | a dispatch has the scheduler pick at most twice, and gives up on a stale route only after the second time |
| `DispatchSessions.SessionsAreAsConnected` | console/internal/grpcserver/session_runtime.go:49-59 | in every run a session is on the node and offers the capabilities, with the limits, that it connected with |
| `DispatchSessions.CloseReasonsAreGiven` | console/internal/grpcserver/session_runtime.go:275-281 | in every run a session is closed at most once, and its close reason is the one given by that close |
| `DispatchSessions.CurrentIsTheLatest` | console/internal/grpcserver/service_connect.go:281-314 | in every run a node's current session is the one that connected last, or none if it has been dropped since |
| `DispatchDelivery.NoBareClose` | console/internal/grpcserver/service_dispatch.go:173-179 | the branch for a channel closed without a value is unreachable |
| `DispatchDelivery.OutcomeIsMine` | console/internal/grpcserver/service_dispatch.go:167-187 | what a settling dispatcher carries is its own command's outcome or the session's close reason |
| `DispatchTheorems.DrainedForever` | console/internal/grpcserver/session_runtime.go:275-300 | once a close has drained a session its pending map stays empty for the rest of the run |
| `DispatchNet.NetIsWhatIsHeld` | console/internal/grpcserver/service_dispatch.go:190-278 | until a dispatch registers its command, all the changes its own steps have made to any counter add up to the slot it holds there |
| `DispatchNet.RoutingOutcome` | console/internal/grpcserver/service_dispatch.go:190-278 | a routing call that succeeds has moved the counters by one slot on the session it returns, whose node its route named at the touch or reserve, and by nothing else; one that fails has moved none |
| `DispatchHistory.SameEpochMeansUnbroken` | console/internal/grpcserver/terminal_session_routes.go:13-195 | two moments of a run fall in one epoch of a route exactly if no step between them clears, prunes or rebinds it |
| `DispatchHistory.StickyWithinAnEpoch` | console/internal/grpcserver/terminal_session_routes.go:50-105 | two successful picks of one terminal session, however far apart, whose readings of its route fall in one epoch land on one node |
| `DispatchHistory.SuccessIsSticky` | console/internal/grpcserver/service_dispatch.go:180-187 | after a success has settled, every dispatch that reads the route from then on and is routed runs on the node that served it, as long as nothing clears, prunes or rebinds the route |
| `DispatchHistory.NotFoundUnsticks` | console/internal/grpcserver/service_dispatch.go:184-186 | after a "session not found" has settled, no dispatch that reads the route from then on runs on that node, until a step makes the route name it again |
| `DispatchHistory.RollbackTakesItsOwnRouteExactly` | console/internal/grpcserver/service_dispatch.go:112-148 | a rollback takes the route its own dispatch made exactly if one of its own steps made one and the epoch is still that of its reading; if the epochs differ and the route names the same node it takes another dispatch's; otherwise it changes nothing |
| `DispatchRollback.RollbackTakesAnothersRoute` | console/internal/grpcserver/service_dispatch.go:112-127 | a run in which the route of a terminal session is made anew after its worker reconnects, and the rollback of the first dispatch takes it from the second |
| `DispatchAnswers.RollbackExactlyBeforeSending` | console/internal/grpcserver/service_dispatch.go:111-163 | a dispatch gets to its rollback exactly if it fails for want of a command ID, of an open session or of room in the queue: never before it has a session, nor after its command is sent |
| `Routes.AgreementIsExact` | console/internal/grpcserver/terminal_session_routes.go:13-48 | forward map and index agree, with no empty bucket, exactly when the index is the inverse image of the forward map |
| `Routes.RouteTable.Bind` | console/internal/grpcserver/terminal_session_routes.go:13-48 | sets one route and keeps agreement; blank IDs change nothing |
| `Routes.RouteTable.Reserve` | console/internal/grpcserver/terminal_session_routes.go:50-82 | keeps the node of a route that exists and makes one otherwise, and says which |
| `Routes.RouteTable.Touch` | console/internal/grpcserver/terminal_session_routes.go:85-105 | refreshes and returns the route's node exactly if there is a route |
| `Routes.RouteTable.Clear` | console/internal/grpcserver/terminal_session_routes.go:107-137 | removes the route only if it still names the expected node, or any node if none is expected |
| `Routes.RouteTable.ClearByNode` | console/internal/grpcserver/terminal_session_routes.go:139-163 | walking one index bucket equals filtering the whole forward map by node |
| `Routes.RouteTable.PruneExpired` | console/internal/grpcserver/terminal_session_routes.go:165-195 | with a positive TTL a route stays, unchanged, exactly if it was last used after now minus TTL, and the number of those that do not is returned; otherwise nothing changes |
| `Routes.RouteTable.MaybePrune` | console/internal/grpcserver/terminal_session_routes.go:197-214 | prunes and stores the time exactly when 60000 ms have passed since the stored time |
| `Routes.AddKeepsAgreement` | console/internal/grpcserver/terminal_session_routes.go:40-47 | adding to one bucket keeps the index the inverse image |
| `Routes.DropKeepsAgreement` | console/internal/grpcserver/terminal_session_routes.go:26-38 | dropping from one bucket, and the bucket once empty, keeps the index the inverse image |
| `Routes.ClearByNodeKeepsAgreement` | console/internal/grpcserver/terminal_session_routes.go:146-162 | dropping a whole bucket matches filtering by node; a node without a bucket has no route |
| `Routes.StalenessBound` | console/internal/grpcserver/terminal_session_routes.go:165-214 | in sequential use with a positive, non-decreasing clock, after a throttled call no route is older than TTL plus one minute |
| `Routes.FreshRoutesStay` | console/internal/grpcserver/terminal_session_routes.go:165-214 | the other half: in such use a route used less than TTL ago that nothing has cleared or rebound is still there |
| `Throttle.PruneRateBound` | console/internal/grpcserver/terminal_session_routes.go:197-214 | in every interleaving of compare-and-swap callers, n prunes span at least n - 1 intervals of stored time |
| `Throttle.PrunersDecide` | console/internal/grpcserver/terminal_session_routes.go:197-214 | whoever interleaves, a caller of the route or task pruner goes on exactly if 60000 or 15000 ms have passed since the time it read, and prunes exactly if the stored time is still that one |
| `Throttle.RoutePrunesAreAMinuteApart` | console/internal/grpcserver/terminal_session_routes.go:197-214 | the bound for the route pruner, 60000 ms |
| `Throttle.TaskPrunesAreFifteenSecondsApart` | console/internal/grpcserver/task.go:632-650 | the bound for the task pruner, 15000 ms |
| `Scheduler.Pool.Survey` | console/internal/grpcserver/service_dispatch.go:286-317 | the candidate loop ends with the first least-loaded node with room, in rotated order, at the head of the preferred list |
| `Scheduler.Pool.PickSessionForCapability` | console/internal/grpcserver/service_dispatch.go:280-338 | undisturbed, returns the first least-loaded node with room in rotated order and takes one slot there and none elsewhere; disturbed, "no worker" still means that no listed node serves the capability |
| `Scheduler.Pool.TryInOrder` | console/internal/grpcserver/service_dispatch.go:326-337 | tries preferred candidates and then the fallbacks, in order, each once, up to the first that has a free slot; what it returns had room when taken, and it gives up only after all of them |
| `Scheduler.Pool.CheckCapabilityAvailability` | console/internal/grpcserver/task.go:601-621 | passes exactly when some listed node has room, and takes nothing |
| `Scheduler.BestIsUnique` | console/internal/grpcserver/service_dispatch.go:299-331 | there is one right answer of an undisturbed pick |
| `Scheduler.AdmissionAgrees` | console/internal/grpcserver/service_dispatch.go:319-324 | admission and scheduler agree on success; their errors differ exactly when nodes are listed and none of them serves the capability |
| `Scheduler.PickOnLoads` | console/internal/grpcserver/service_dispatch.go:280-338 | an undisturbed pick on a pool, seen through the loads, is one step of the pick sequences below |
| `Scheduler.PicksStayLevel` | console/internal/grpcserver/service_dispatch.go:299-331 | from an idle pool with no releases no node gets more than one ahead of a node with room |
| `Scheduler.CapacityIsHandedOut` | console/internal/grpcserver/service_dispatch.go:280-338 | from an idle pool exactly the sum of the limits is handed out before the first pick that finds no room |
| `Scheduler.PicksVisitEachOnce` | console/internal/grpcserver/service_dispatch.go:286-299 | with each slot released before the next pick, n picks over n equally loaded nodes visit every node once |
| `Scheduler.Pool.TryAcquire` | console/internal/grpcserver/session_runtime.go:118-137 | one attempt on one session of the pool: its counter and its account of slots taken go up together, exactly if it had room |
| `Scheduler.Pool.Release` | console/internal/grpcserver/session_runtime.go:139-153 | one slot of one session of the pool goes back: the account goes down by one, and the counter unless it is zero |
| `SessionPicker.SessionPicker.PickSessionForNodeAndCapability` | console/internal/grpcserver/service_dispatch.go:263-278 | whoever interferes, success leaves one more slot on the account of the node's session, failure none; "no worker" exactly when the node does not serve the capability |
| `SessionPicker.SessionPicker.FollowTo` | console/internal/grpcserver/service_dispatch.go:231-241 | the slot in hand goes back on the account and at most one is taken on the other node; undisturbed, that is the whole effect |
| `SessionPicker.SessionPicker.ReserveOrFollow` | console/internal/grpcserver/service_dispatch.go:227-241 | whoever interferes, a slot given up for another node's goes back on its account; undisturbed, the route is made or followed, with one release on the session given and at most one slot taken on the route's node |
| `SessionPicker.SessionPicker.PickAndReserve` | console/internal/grpcserver/service_dispatch.go:218-241 | one round ends with exactly the slot of the session it returns on the accounts, or none; undisturbed the route names that session's node, and a failed round reports the stale node |
| `SessionPicker.SessionPicker.TryReserveAndPickTerminalSession` | console/internal/grpcserver/service_dispatch.go:215-261 | whoever interferes, the retry protocol leaves one more slot on the account of the session it returns and none elsewhere, or none at all; undisturbed the counters show the same and the route names the node picked |
| `SessionPicker.SessionPicker.PickSessionForDispatch` | console/internal/grpcserver/service_dispatch.go:190-213 | the same accounts for the whole pick; undisturbed, it follows a route whose node serves the capability, replaces any other, and takes exactly one slot on success and none on failure |
| `Tasks.StatementsLeaveTheOverAlone` | console/internal/persistence/sqlc/tasks.sql.go:122-260 | no statement changes a terminal row except by pruning it, and none brings one back |
| `Tasks.VerdictsReport` | console/internal/grpcserver/task.go:399-524 | a row with the verdict of an answer reports this answer: a payload as the result of a success, a deadline as a timeout, a cancelled context as canceled, any other error as a failure with its own trimmed code, or its class's if that is blank |
| `Tasks.TaskService.Exec` | console/internal/grpcserver/task.go:458-499 | a guarded statement that reports no row changed found the task over and wrote nothing; undisturbed it has exactly its effect |
| `Tasks.TaskService.FinishTask` | console/internal/grpcserver/task.go:526-564 | success means this verdict is in the row, "not applied" that the task was over; the runtime record is gone either way |
| `Tasks.TaskService.FailTaskOnPersistenceError` | console/internal/grpcserver/task.go:566-585 | either the row carries the persistence error or the critical hook is called |
| `Tasks.TaskService.ExecuteTask` | console/internal/grpcserver/task.go:366-456 | for every pattern of store failures and interference, the row is over or the critical hook was called; undisturbed, an active row reports exactly what dispatch returned, at the time of completion and with its retention |
| `Tasks.TaskService.FinishOrFallBack` | console/internal/grpcserver/task.go:397-456 | the executor's ending leaves the row over or calls the critical hook, and makes at most one terminal write |
| `Tasks.TaskService.CancelTask` | console/internal/grpcserver/task.go:264-296 | for any task ID, known or not: a cancel that reports success has itself made the one terminal write that the row shows; one that reports the task as over has written nothing |
| `TaskRuns.StepKeepsInv` | console/internal/grpcserver/task.go:186-248 | every step keeps that each task has one executor, started by its own submit after publishing |
| `TaskRuns.RowsOnlyMoveForward` | console/internal/persistence/sqlc/tasks.sql.go:181-236 | over every run status moves queued, dispatched, running, terminal; terminal rows keep status, result and error until pruned, and do not come back |
| `TaskRuns.OneTerminalWrite` | console/internal/persistence/sqlc/tasks.sql.go:225-236 | each row takes at most one terminal write |
| `TaskRuns.LosingWritersAreTold` | console/internal/grpcserver/task.go:526-585 | after the one terminal write every further one that reaches the store changes nothing and its writer learns "not applied" |
| `TaskRuns.ReturnedMeansOverOrCritical` | console/internal/grpcserver/task.go:366-585 | in every run with any store failures, an executor that has returned leaves its row over or has called the critical hook |
| `TaskWaiters.ReservationsAreTheHolders` | console/internal/grpcserver/task.go:159-245 | the reservation set is exactly the keys of the submits that hold one, one each, and no returned submit holds any |
| `TaskAnswers.InProgressExactly` | console/internal/grpcserver/task.go:159-171 | over every run, a submit is told that its request is in progress exactly if another submit of the same trimmed owner and request holds a reservation at that moment |
| `TaskWaiters.InsertsNeverConflict` | console/internal/grpcserver/task.go:195-226 | with a working store the reservations alone keep a second row of a request out: the unique-index path is never taken |
| `TaskAnswers.OneRowPerRequest` | console/db/migrations/00001_init.sql:83-85 | in every run, however the store fails, a request of an owner has at most one row at a time |
| `TaskWaiters.DoneSignalsTellTheTruth` | console/internal/grpcserver/task.go:526-599 | with a working store a live published task has an open done signal, and a closed one means the row is over |
| `TaskWaiters.SyncSubmitsEndWell` | console/internal/grpcserver/task.go:298-364 | with a working store a submit that has got to a task, deduplicated or not, answers with what is true of it: not-found only if it is pruned, finished as its row says, or its caller's context error; a synchronous one never shows it unfinished |
| `TaskAnswers.RepliesAreDecidedOnce` | console/internal/grpcserver/task.go:111-364 | a submit that has returned has decided its reply at exactly one of its steps, by what it found there, and returns this one |
| `TaskAnswers.AsyncNeverWaits` | console/internal/grpcserver/task.go:298-316 | an asynchronous submit never waits for its task |
| `TaskAnswers.SnapshotsAreOwn` | console/internal/grpcserver/task.go:298-364 | a status that a submit returns is one that a row of its own owner and request had while it was busy with that task |
| `TaskAnswers.ProgressShows` | console/internal/grpcserver/task.go:366-396 | a live row is queued until its executor has marked it, dispatched until there is a command, then running with the ID of a command that its dispatch reported |
| `TaskAnswers.LiveRowsShowNoEnd` | console/internal/persistence/sqlc/tasks.sql.go:122-236 | in every run a live row shows no result, no error, no completion and no expiry, and a command only while it runs |
| `TaskAnswers.FinishedRowsHaveAnAuthor` | console/internal/grpcserver/task.go:526-585 | every finished row was ended by one step, its executor's or a cancel's, and says exactly what that step had to say |
| `TaskAnswers.VerdictsHaveASource` | console/internal/grpcserver/task.go:366-456 | what an executor is about to write, its dispatch has come back with; the persistence error only after the store has failed on it |
| `TaskAnswers.CancelsAreTheOwners` | console/internal/grpcserver/task.go:264-296 | a cancel ends no task but its own owner's |
| `TaskAnswers.CancelsAreToldTheTruth` | console/internal/grpcserver/task.go:264-296 | a cancel is told what its own look or write found: unknown, already over, applied, not applied, or a store error |
| `TaskAnswers.ResultsAreKept` | console/internal/grpcserver/task.go:623-650 | a finished row is there, unchanged, exactly until something prunes at or after its expiry |
| `TaskSignals.ReleasedExactly` | console/internal/grpcserver/task.go:690-713 | however the store fails, once nobody works on a task its record is removed and its signal closed exactly if at the publishing the task was live or a cancel was on its way to the record, or the executor could not mark it; otherwise the record stays, open |
| `TaskSignals.RecordsAreReleased` | console/internal/grpcserver/task.go:702-713 | however the store fails, if no cancel of the task began before its publishing, its record is removed and its signal closed once nobody works on it |
| `TaskSignals.EarlyCancelLeaksRecord` | console/internal/grpcserver/task.go:202-237 | a run of the machine that shows this assumption to be needed: a cancel that is through before the publishing leaves an open record for good |
| `Containers.ClampedIsProper` | worker/worker-docker/internal/runner/terminal_exec.go:122-145 | any configuration yields a positive lease range containing the default; missing numbers become 60, 1800 and the default, and a proper range is kept |
| `Containers.TerminalSessionManager.constructor` | worker/worker-docker/internal/runner/terminal_exec.go:122-185 | the constructor's clamping yields that range and an empty table |
| `Containers.TerminalSessionManager.ResolveLeaseDuration` | worker/worker-docker/internal/runner/terminal_exec.go:331-344 | accepts exactly the range, as 1000000000 ns a second, with the default for a missing value |
| `Containers.TerminalSessionManager.ClaimForExec` | worker/worker-docker/internal/runner/terminal_exec.go:254-288 | claims an idle session, makes a missing one if asked, refuses a busy one; leases only grow |
| `Containers.TerminalSessionManager.ClaimForResource` | worker/worker-docker/internal/runner/terminal_resource.go:126-138 | claims an idle session and nothing else of it changes |
| `Containers.TerminalSessionManager.MarkSessionIdle` | worker/worker-docker/internal/runner/terminal_exec.go:410-425 | clears the busy flag and returns the lease, or says the session is missing |
| `Containers.TerminalSessionManager.DropSession` | worker/worker-docker/internal/runner/terminal_exec.go:427-436 | removes one entry from the table |
| `Containers.TerminalSessionManager.DestroySession` | worker/worker-docker/internal/runner/terminal_exec.go:438-454 | removes one entry and hands back its container, if there was one |
| `Containers.TerminalSessionManager.CleanupExpiredSessions` | worker/worker-docker/internal/runner/terminal_exec.go:388-403 | removes exactly the idle sessions with a lease at or before now and returns their containers |
| `ContainerRuns.StepKeepsInv` | worker/worker-docker/internal/runner/terminal_exec.go:213-329 | every step keeps the joint invariant of busy flags, container names, removals, accounts and leases |
| `ContainerRuns.EveryContainerIsAccountedFor` | worker/worker-docker/internal/runner/terminal_exec.go:237-309 | before Close every container made is owned by exactly one session or its removal is issued or scheduled |
| `ContainerRuns.DelayedRemovalsSpareTheLiving` | worker/worker-docker/internal/runner/terminal_exec.go:388-454 | a removal waiting with the janitor or a destroying call never targets a live session's container, even after the session ID is reused |
| `ContainerRuns.OneCallPerSession` | worker/worker-docker/internal/runner/terminal_resource.go:126-155 | calls in flight are on different sessions and each still finds the very session it claimed |
| `ContainerRuns.NoSessionVanishes` | worker/worker-docker/internal/runner/terminal_exec.go:314-318 | the "session vanished" answer after a completed command is unreachable |
| `ContainerRuns.SweepTakesIdleAndExpired` | worker/worker-docker/internal/runner/terminal_exec.go:388-408 | a sweep removes a session exactly if it is idle and expired, hence none with a call in flight |
| `ContainerRuns.ReportedExpiryIsBounded` | worker/worker-docker/internal/runner/terminal_exec.go:223-329 | a reported expiry is at least the call's start plus its TTL and at most the longest TTL after some execute call of the session |
| `ContainerAnswers.ClaimAnswersTheTable` | worker/worker-docker/internal/runner/terminal_exec.go:223-288 | a claim is refused as busy, missing or not allocated exactly if the table says so, and else takes the one session: busy, with its lease at the later of what it was and the start plus the TTL |
| `ContainerAnswers.AnswerFollowsDocker` | worker/worker-docker/internal/runner/terminal_exec.go:290-329 | in every interleaving the answer is what docker did: a finished command reports the lease its session is handed back with, an error fails and hands it back, a cut-off command fails and a missing container is reported as gone, both with the session out of the table and its container's removal issued; a container not made or started leaves no session |
| `ContainerAnswers.AnswersHaveACause` | worker/worker-docker/internal/runner/terminal_exec.go:213-329 | every answer comes from a refused claim or from docker's part of the same call |
| `ContainerAnswers.ReleasedForGood` | worker/worker-docker/internal/runner/terminal_exec.go:438-454 | a container once given up belongs to no session again, and its removal stays issued |
| `ContainerRuns.LeaseNeverShrinks` | worker/worker-docker/internal/runner/terminal_exec.go:281-285 | a session's lease never shrinks over a run |
| `Provisioning.RollbackLeavesNoTrace` | console/internal/grpcserver/service_credentials_runtime.go:90-121 | seeding a node and deleting it again restores every table |
| `Provisioning.ProvisioningService.Attempt` | console/internal/grpcserver/service_credentials_runtime.go:67-126 | one pass either adds a node with all its rows or leaves the credentials and every old row as they were; nothing at all changes if the rollback's deletion works, and otherwise at most orphans of this owner and type remain |
| `Provisioning.ProvisioningService.CreateProvisionedWorkerForOwner` | console/internal/grpcserver/service_credentials_runtime.go:47-129 | success adds one node, its credential and, for a worker-sys, the owner's only claim; a failure changes nothing; where deletions of rollbacks fail, orphans are added to that and nothing else |
| `ProvisioningRuns.AtMostOneWorkerSys` | console/internal/grpcserver/service_credentials_runtime.go:61-127 | from any tables, with deletions and store failures anywhere, two successful worker-sys creations of one owner never both have their node |
| `ProvisioningRuns.ExactlyOneWorkerSys` | console/internal/persistence/sqlc/workers.sql.go:309-316 | from any tables without a worker-sys of the owner and with neither, when all its creations have finished exactly one succeeded, the others were told so, and that one's node is the owner's only worker-sys |
| `ProvisioningRuns.CreatedMeansStored` | console/internal/grpcserver/service_credentials_runtime.go:47-129 | when a creation reports success its node is in the table with its owner and type, its credential is new, and a worker-sys's claim names it |
| `ProvisioningRuns.OnwardMeansStored` | console/internal/grpcserver/service_credentials_runtime.go:67-110 | a creation goes past its seed and its claim only once the new rows are in the tables |
| `ProvisioningRuns.ExhaustedMeansEight` | console/internal/grpcserver/service_credentials_runtime.go:66-129 | a creation seeds at most 8 times, and reports exhaustion only after the eighth |
| `ProvisioningRuns.CredentialsAreSomeones` | console/internal/grpcserver/service_credentials_runtime.go:97-125 | a credential that is kept is that of a creation which has succeeded or is still at work on it |
| `ProvisioningRuns.OrdinaryCreationsSucceed` | console/internal/grpcserver/service_credentials_runtime.go:47-129 | with a working store every finished creation of an ordinary worker has succeeded |
| `OwnerScope.RoundTrip` | console/internal/grpcserver/task_owner_scope.go:42-76 | unscoping a scoped ID returns the trimmed ID, and refuses exactly the blank one |
| `OwnerScope.CrossOwnerExactly` | console/internal/grpcserver/task_owner_scope.go:55-76 | every session of one owner is closed to another exactly when neither name continues the other past a colon |
| `OwnerScope.ColonFreeOwnersAreApart` | console/internal/grpcserver/task_owner_scope.go:55-76 | owners without a colon never read each other's sessions |
| `OwnerScope.ScopeInjective` | console/internal/grpcserver/task_owner_scope.go:42-53 | for such owners a scoped ID determines the trimmed owner and session |
| `OwnerScope.ScopeCollides` | console/internal/grpcserver/task_owner_scope.go:42-53 | with a colon in the owner two different pairs share one scoped ID |
| `OwnerScope.KeysMeetExactly` | console/internal/grpcserver/task_owner_scope.go:34-40 | two requests have one key exactly if they are one trimmed request of one trimmed owner, or one owner's name is the other's continued past the separator |
| `OwnerScope.KeysTellRequestsApart` | console/internal/grpcserver/task_owner_scope.go:34-40 | for owners without a NUL equal keys mean one request of one owner |
| `OwnerScope.KeyCollides` | console/internal/grpcserver/task_owner_scope.go:34-40 | with the separator in the owner two different pairs share one key |
| `ShellCommand.ShellReadsCommandBack` | web/src/composables/useWorkerStartupTool.ts:143-147 | by sections 2.2.1, 2.2.2 and 2.3 of the POSIX Shell Command Language the printed command reads as KEY=value in order, then the binary path, for every value |
| `ShellCommand.ReadQuoted` | web/src/composables/useWorkerStartupTool.ts:71-73 | a quoted value extends the current word by exactly that value |
| `ShellCommand.CommandDeterminesConfiguration` | web/src/composables/useWorkerStartupTool.ts:143-147 | no two configurations print alike |

## Left out

- gRPC streams, HTTP handlers, heartbeats, authentication, the web stores and clients, and everything else that is input and output around the modelled code.
- Sending on the outbound queue: the select in `enqueue` is a step with an arbitrary result, so a command may be enqueued, fail with the session's error or end with the caller's context.
- `closeResult` sends and closes in one step; the channel has capacity one and its sender is the only one to close it.
- Whether a worker error means "session not found" is a parameter of the step, not derived from its code text.
- Capability names are taken as already lower-cased and trimmed, and generated command IDs as trimmed.
- JSON payloads: scoping and unscoping are proved on the ID strings, not on the documents that carry them.
- The conversion of worker results to JSON, completion times taken from the worker, and message texts that only describe an error.
- `routeNowUnixMs` for a zero time, and time stamps finer than a millisecond in the routing table.
- The rotation counter is unbounded; after 2^63 picks the program's conversion of it to a signed integer would turn negative.
- The session map does not change during one call of `PickSessionForCapability` or `PickSessionForDispatch` in their class form; in the dispatch machine it changes at any step.
- `Execute`, `ResolveResource` and `dispatchCommand` as single methods: their lock sections are methods, and their program order is that of the state machines.
- `SubmitTask` as a single method: its statements and lock sections are steps of the task machine, together with their program order.
- Validation and defaulting of a submit's mode, timeout and wait, and the mapping of errors to status codes.
- Rows left by an earlier process: the program marks them failed before it serves requests, and the task machine starts with an empty table.
- `Close` of the terminal session manager racing with calls in flight, and creations that fail after docker has made the container.
- CreateProvisionedWorkerForOwner: an insert that reports a failure has not been applied; the machine in `ProvisioningRuns` also has stores that apply a statement and report an error.
- Lease arithmetic beyond the range of a 64-bit duration.
- Hashing and generation of secrets, IDs and container names, and caching of credentials.
- The index of nodes by label behind the worker count: the count is taken from the node rows.
- The worker-sys command gate, reconnect backoff, configuration parsing, pagination and token lists: pure bookkeeping without shared state.
