# bbot-bee: the drone, the queen and the cgroup, modelled and proved in Dafny

bbot-bee runs bbot scans in subprocesses. A `Queen` takes commands from the hive, keeps one `Drone` per
scan, buffers events and log lines, and reports statuses. A `Drone` owns one subprocess and one cgroup v2
directory. Everything runs on one asyncio loop, so the code between two suspending awaits is atomic and the
loop picks the next ready piece freely.

The project models the bee as step systems. A state is a value; an action is one atomic region of the code
or one move of the environment (a process dies, a send raises, a caller is cancelled, the clock advances);
`Step` applies an action if its guard holds and otherwise changes nothing; `Exec` runs any sequence of
actions. A lemma about every sequence of actions is a lemma about every interleaving. `Bee` joins the queen's
system and the drones' where they touch. The classes
`DroneObject.Drone`, `QueenObject.Queen`, `Cgroup.Host`, `ScanProcess.Process` and `PendingStops.StopTable`
hold the source's fields and update them in place; their methods are proved to be steps of these systems,
or to compute the functions the lemmas are about.

`dafny verify dfyconfig.toml` checks the whole project.

## Files

- `Statuses.dfy`: the statuses, the forward-only ratchet, joins and strict maxima.
- `DroneMachine.dfy`, `DroneGuarantees.dfy`, `DroneTheorems.dfy`: one drone's actors as a step system, what
  every step keeps, and the promises over all runs. `DroneCalls.dfy`: what each stop call, each step of start()
  and each wake of the monitor does. `Drone.dfy`: the class.
- `QueenMachine.dfy`: the queen as a step system. `QueenLedger.dfy`, `QueenBuffers.dfy`: conservation and loss.
  `QueenNumbers.dfy`: no line is accepted twice. `QueenOrder.dfy`: FIFO. `QueenTerminal.dfy`, `QueenPrecedence.dfy`: data before the terminal status.
  `QueenStatuses.dfy`: how often and in what order a scan's status messages go out. `QueenRegistry.dfy`:
  registry, capacity, state_sync. `QueenEndToEnd.dfy`: from a scan's pipes to the wire. `QueenFlush.dfy`: the
  flush loops run to their end. `QueenRuns.dfy`: runs from the start that break an order. `Queen.dfy`: the class.
- `DroneInQueen.dfy`, `Bee.dfy`, `BeeTheorems.dfy`: the queen and all her drones as one system, and the
  monitor's verdict on the wire.
- `Kernel.dfy`, `Containment.dfy`, `Cgroup.dfy`: processes and cgroups, containment of a process tree, and
  cgroup.py as methods over a host.
- `ScanProcess.dfy`, `Commands.dfy`, `CommandAnswers.dfy`: the subprocess's command reader and exit code, the
  command pipeline across the bee, and which commands are never answered.
- `PendingStops.dfy`: the stop tasks. `Options.dfy`, `Sets.dfy`: optional values and set sizes.

## Assumptions

- Status codes belong to a library that is not part of this model; the codes its tests show are used
  (NOT_STARTED 0, STARTING 2, RUNNING 3, FINISHING 4, ABORTING 5, FINISHED 6, FAILED 7, ABORTED 8).
- `channel.send` delivers once and returns, or raises ConnectionError and delivers nothing. A cancelled send
  delivers nothing.
- Times are milliseconds. `lag` bounds how late the loop runs a due timer, so the loop's own blocking calls
  are covered: with `lag` 0 the failsafe is exact.
- Return codes, the moment a process dies, waitpid results, sends, cancellations and what processes do during a
  sleep are inputs of the model.
- The bee reaps orphans (it is PID 1 of its pod), scan processes do not move themselves between cgroups, and a
  zombie counts as a cgroup member until reaped, as bbot_bee/cgroup.py:45-48 says.
- Nobody cancels a drone's monitor task. A reader may raise at any time.
- Batch sizes are at least 1, which bbot_bee/config.py:32-34 does not enforce; see
  `QueenFlush.ZeroBatchSizeNeverEnds`.

## Where the code differs from what it says

- The failsafe is promised whatever happens to the caller (bbot_bee/drone.py:225-230). A stop issued while
  `start()` awaits its first drain arms the timer and cancels it in the same breath, because there is no monitor
  task to wait for. A stop during the spawn itself finds no process
  and is lost. `FailsafeGuarantee` gives the exact condition per timer, `StopCoversIff` per stop call, and
  `StopDuringStartHasNoFailsafe` a run.
- The queen is promised to buffer through disconnects (bbot_bee/queen.py:80-82). Re-buffering assigns rather
  than merges, so lines accepted during a failing send are overwritten, and a flusher cancelled inside send drops
  what it holds. `NothingLostIffLossless` shows, stream by stream, that these are the only losses.
- Two flushers that hold the same scan's lines of one kind can swap them (`OverlapFromStart`);
  `OrderSafeIffOneHolder` shows that nothing else can.
- A terminal status is promised to follow the scan's data (bbot_bee/queen.py:539). Another flusher that holds the
  data, or has it pending, can be overtaken (`HeldFollowsFromStart`, `PendingFollowsFromStart`);
  `PrecedesIffUnclaimed` and `AlwaysPrecedesIffTaken` give the exact conditions while the report's own sends
  succeed; when one of them fails the status goes out all the same (`OwnFailureFromStart`).
- The monitor logs that the readers have drained before it decides (bbot_bee/drone.py:372-376). It skips a reader
  that has already raised, and that reader's unread lines are never sent (`RaisedReaderRun`, `UnreadForever`).
- The tracked scans are meant to be the live ones. A `start_scan` for a tracked scan untracks the running drone, and
  so does the late ABORTED of a finished drone whose id was started again (`LateAbortUntracks`);
  `ExactIffNeverBreaks` shows that there is no third way.
- Statuses are announced in rising order, but on the wire the messages of two overlapping reports can swap
  (`AbortedOvertakesFailed`), and the FAILED of a refused second start can go out before the running drone's
  FINISHED (`RefusalOvertakesFinished`). `StatusOrderIff` shows, for every run, that there is no third way.
- Stop tasks are listed by scan id so that shutdown can await them (bbot_bee/queen.py:126-131). Overlapping stops of
  one scan break that (`EntriesAreInFlightIff`).
- A scan id is said to match an allowlist (bbot_bee/cgroup.py:21-24, 221). A trailing newline passes too
  (`TrailingNewlinePasses`); directories stay distinct all the same.
- A forwarded command is meant to be answered, by the process or by the queen (bbot_bee/queen.py:469-471). It never
  is if the process dies or its scan ends with the command still on stdin (`ProcessDiesFirst`, `ListenerStopsFirst`),
  if the drone's stdout reader stops, or never starts, before the reply is read, or if the drain raises anything but
  BrokenPipeError (`DrainRaises`). `AnswerableIff` is exact over every run.

## Model

| member | source | states |
|---|---|---|
| Statuses.FinalIsJoin | bbot_bee/drone.py:435-462 | the status after any attempts is the largest of NOT_STARTED and the attempts |
| Statuses.FinalIgnoresOrder | bbot_bee/drone.py:435-462 | any reordering of the attempts ends in the same status |
| Statuses.AnnouncedAreMaxima | bbot_bee/drone.py:444-462 | the callbacks are exactly the attempts that beat everything before them, in order |
| Statuses.AnnouncedOnce | bbot_bee/drone.py:444-462 | no status is announced twice, and at most three terminal ones are |
| Statuses.LivesAreAnnounced | bbot_bee/drone.py:435-462 | any selection of the statuses in their order, NOT_STARTED, STARTING, RUNNING, FINISHING, ABORTING, FINISHED, FAILED, ABORTED, is announced in full |
| Statuses.AbortedIsFinal | bbot_bee/drone.py:423-428 | after ABORTED nothing changes and nothing is announced |
| Statuses.TerminalIsFinalIffAborted | bbot_bee/drone.py:444-456 | a terminal status is final if and only if it is ABORTED |
| DroneGuarantees.EveryStep | bbot_bee/drone.py:123-462 | what any atomic region may do to shape, status attempts, operation trace and timers |
| DroneGuarantees.InvRun | bbot_bee/drone.py:123-462 | every state of every run satisfies shape, status and timer invariants |
| DroneTheorems.CgroupOperationOrder | bbot_bee/drone.py:142-156 | over all interleavings the cgroup sees a prefix of create, populate, early kills, final kill, wait_empty, cleanup, each early kill with the return code unknown |
| DroneTheorems.FailsafeGuarantee | bbot_bee/drone.py:225-261 | a cooperative stop is covered (process exited, timer pending, or killed in its window) if and only if the monitor existed when it armed the timer or the process has exited |
| DroneTheorems.StopCoversIff | bbot_bee/drone.py:203-239 | a cooperative stop call's own failsafe covers the process in every continuation if and only if the process ran, the drone was not terminal and the monitor existed, or no process could run any more |
| DroneTheorems.NoSurvivorPastDeadline | bbot_bee/drone.py:225-230 | past the graceful window plus the loop's delay a live process has been killed by that stop's failsafe, whatever was cancelled |
| DroneTheorems.StopDuringStartHasNoFailsafe | bbot_bee/drone.py:430-433 | a run in which a stop during start leaves a live, never killed process past any deadline |
| DroneTheorems.NoKillBeforeDeadline | bbot_bee/drone.py:217-239 | a kill that may hit a live process was forced or came no earlier than some stop's graceful window |
| DroneTheorems.NoForceNoForcedKill | bbot_bee/drone.py:217-223 | runs without a forced stop contain no forced kill |
| DroneTheorems.NoForceNoEarlyKill | bbot_bee/drone.py:408-421 | without a forced stop every kill of a live process is a failsafe's after its window |
| DroneTheorems.StatusIsJoinOfAttempts | bbot_bee/drone.py:435-462 | in every run the drone's status is the join of all actors' attempts and its callbacks their strict maxima |
| DroneTheorems.EscalationEndsAborted | bbot_bee/drone.py:408-428 | once the failsafe has killed and its tasks have run, the drone is ABORTED, whichever of monitor and task went first |
| DroneTheorems.EscalationNeverAnnouncesFailed | bbot_bee/drone.py:384-397 | after an escalation with a negative return code and no FAILED on stdout, FAILED is never announced |
| DroneTheorems.MonitorReturnsTerminal | bbot_bee/drone.py:355-397 | a monitor that returned leaves a terminal drone and a torn down cgroup |
| DroneTheorems.MonitorDecides | bbot_bee/drone.py:383-397 | if only the monitor attempted terminal statuses: FINISHED if and only if the code is 0; ABORTED if and only if it is 2, or negative and a stop was called before the monitor decided; FAILED in every other case |
| DroneTheorems.VerdictAfterReaders | bbot_bee/drone.py:372-397 | from the monitor's verdict on, both readers have finished |
| DroneCalls.ForcedStopKillsIff | bbot_bee/drone.py:203-223 | a stop call appends exactly one cgroup kill, now, if and only if it is forced and finds a spawned process with no known return code, not gone, of a drone not terminal; else none |
| DroneCalls.ForcedKillsAreForcedStops | bbot_bee/drone.py:217-219 | over every run there are as many forced kills as forced stop calls that found a process |
| DroneCalls.StopDeadlines | bbot_bee/drone.py:220-254 | whatever happens afterwards, a waiting forced call has five seconds, a cooperative one the graceful window plus one second, then ten more |
| DroneCalls.StopCallEnds | bbot_bee/drone.py:217-261 | a stop call that ends without raising leaves the drone terminal, ABORTED if it was not, and a cooperative one that saw the exit leaves no pending timer; one that raises changes nothing |
| DroneCalls.StartIff | bbot_bee/drone.py:140-179 | a process exists if and only if creation and spawn succeeded; readers and monitor if and only if creation, spawn, populate and the first drain all did; after a failed step none is taken |
| DroneCalls.MonitorWakesIff | bbot_bee/drone.py:363-381 | the woken monitor crashes if and only if the reader it awaited raised, waits if and only if a reader still runs, and else sweeps the cgroup |
| DroneCalls.CrashLeavesCgroup | bbot_bee/drone.py:372-381 | a monitor that crashed before its sweep did so because a reader raised, and nothing was cleaned up |
| DroneCalls.CallbackIff | bbot_bee/drone.py:383-397 | the monitor crashes after its sweep if and only if its status callback raised |
| DroneObject.Drone.constructor | bbot_bee/drone.py:80-90 | a new drone is the initial state and satisfies the invariant |
| DroneObject.Drone.SetStatus | bbot_bee/drone.py:435-462 | refuses or advances exactly as the ratchet, announcing each advance |
| DroneObject.Drone.StartCreate | bbot_bee/drone.py:140-143 | the cgroup is created before the spawn |
| DroneObject.Drone.StartSpawned | bbot_bee/drone.py:145-161 | populate directly follows the spawn |
| DroneObject.Drone.StartDrained | bbot_bee/drone.py:165-179 | readers and monitor exist only from the end of start |
| DroneObject.Drone.Stop | bbot_bee/drone.py:199-247 | is the stop step: no-ops, forced kill, or armed failsafe, keeping the invariant |
| DroneObject.Drone.EnterStop | bbot_bee/drone.py:199-247 | the whole new state of stop up to its first suspension |
| DroneObject.Drone.StopCooperative | bbot_bee/drone.py:231-247 | the timer armed for the graceful window, cancelled at once when there is nothing to await |
| DroneObject.Drone.StopResumes | bbot_bee/drone.py:242-256 | cancels the timer when the monitor is done, re-raises its exception otherwise |
| DroneObject.Drone.StopTimesOut | bbot_bee/drone.py:249-256 | a cooperative stop waits ten seconds more, then concludes; a forced one raises |
| DroneObject.Drone.ConcludeStop | bbot_bee/drone.py:255-256 | ABORTED is set unless the drone is terminal |
| DroneObject.Drone.ForceKillRunaway | bbot_bee/drone.py:408-428 | kills and spawns the ABORTED task unless the process is known to have exited |
| DroneObject.Drone.RunEscalation | bbot_bee/drone.py:423-428 | attempts ABORTED |
| DroneObject.Drone.ResumeMonitor | bbot_bee/drone.py:355-397 | joins the readers that still run, re-raises what they raise, then tears down and decides |
| DroneObject.Drone.TearDown | bbot_bee/drone.py:378-397 | kill, wait, cleanup, then the verdict on the return code |
| QueenLedger.LedgerBalances | bbot_bee/queen.py:600-636 | with any number of suspended flushers, accepted = delivered + buffered + held + lost as multisets, for every stream in every state of every run |
| QueenLedger.LostGrowsBy | bbot_bee/queen.py:612-616 | lost grows only by a list a re-buffer overwrites or by what a cancelled flusher holds |
| QueenLedger.ResumeConserves | bbot_bee/queen.py:602-606 | a flush up to its next send only moves lines from buffer to flusher |
| QueenNumbers.AcceptedOnce | bbot_bee/queen.py:496-503 | no line is accepted twice, whatever its text |
| QueenBuffers.BufferRun | bbot_bee/queen.py:604-607 | in every run each batch sent is non-empty and within the batch size, held batches are full unless last, buffers hold no empty list |
| QueenBuffers.NothingLostIffLossless | bbot_bee/queen.py:612-617 | nothing of a stream is lost if and only if no re-buffer hits a re-created list of it and no flusher is cancelled in a send of it |
| QueenOrder.Fifo | bbot_bee/queen.py:496-503 | for a stream never held by two flushers and without loss, whatever flushers of other streams do: accepted = delivered ++ held ++ buffered in order |
| QueenOrder.FifoWithGaps | bbot_bee/queen.py:600-617 | for a stream never held by two flushers, with losses, what remains is a subsequence of what was accepted |
| QueenOrder.OrderSafeIffOneHolder | bbot_bee/queen.py:565-598 | over a lossless run no send can ever put a line ahead of an older one of its stream if and only if no two flushers ever hold the stream at a time |
| QueenRuns.OverlapFromStart | bbot_bee/queen.py:565-581 | a run from the start in which two overlapping flushers deliver the second event while the first is still held |
| QueenTerminal.DataBeforeTerminalStatus | bbot_bee/queen.py:539-545 | while no other task holds the stream, whatever else is flushed: everything delivered or buffered at entry is on the wire before the status message, in order, or still buffered in order if a send failed |
| QueenPrecedence.PrecedesIffUnclaimed | bbot_bee/queen.py:539-545 | in every continuation without a new flush of the stream, with successful sends of the report, all data delivered, held or buffered at entry precedes the status if and only if no other task holds the stream or has it pending while buffered |
| QueenPrecedence.AlwaysPrecedesIffTaken | bbot_bee/queen.py:539-545 | with new flushes free to begin, it does if and only if no other task holds the stream and the report itself took all of it at once |
| QueenRuns.HeldFollowsFromStart | bbot_bee/queen.py:539-545 | a run from the start whose terminal status goes out before an event a flusher holds |
| QueenRuns.PendingFollowsFromStart | bbot_bee/queen.py:602-606 | a run from the start in which a flusher suspended on another scan takes a finishing scan's event away from its report |
| QueenRuns.OwnFailureFromStart | bbot_bee/queen.py:612-617 | a run from the start in which the report's own batch send fails and the status goes out before the event |
| QueenStatuses.StatusLedger | bbot_bee/queen.py:505-546 | every status handler entered has its message on the wire, owes it, or lost it to a failed send or a cancellation; the wire carries no other |
| QueenStatuses.StatusSentOnce | bbot_bee/queen.py:505-546 | for a scan id used by one drone and never refused, each status is sent or owed at most once |
| QueenStatuses.StatusesInOrder | bbot_bee/queen.py:540-545 | while never two reports of the scan have their message to send at a time, and each enters above all the wire carries for the scan, the wire carries its statuses in rising order |
| QueenStatuses.StatusOrderIff | bbot_bee/queen.py:540-545 | for every run: at every moment, however the suspended sends are resumed, the scan's statuses go out in rising order if and only if never two of its reports have their message to send at a time and each enters above all the wire carries for the scan |
| QueenStatuses.OneDroneOrderIff | bbot_bee/drone.py:444-462 | for a scan id used by one drone and never refused, the ratchet sees to the second condition, and no status above the drone's own is sent |
| QueenRuns.AbortedOvertakesFailed | bbot_bee/queen.py:540-545 | a run from the start in which ABORTED goes out before FAILED |
| QueenRuns.RefusalOvertakesFinished | bbot_bee/queen.py:439-444 | a run from the start in which the FAILED of a refused second start goes out before FINISHED, with never two messages owed |
| QueenRegistry.RegistryAgreement | bbot_bee/queen.py:526-546 | at every suspension point tracked scans are drones of that id with a non-terminal status, and every state_sync sent adds up and lists no terminal scan |
| QueenRegistry.SnapshotOk | bbot_bee/queen.py:224-248 | a state_sync built at any such point has available = max_scans - active scans |
| QueenRegistry.SyncTellsRegistry | bbot_bee/queen.py:224-255 | over every run, a state_sync posted by the loop, on connect or by set_max_scans gives the limit then in force, that limit minus the number of tracked scans, and every tracked scan with its drone's status |
| QueenRegistry.SyncsWereTrue | bbot_bee/queen.py:250-255 | every state_sync on the wire or on its way told the registry as it was at some moment of the run |
| QueenRegistry.ExactStepIff | bbot_bee/queen.py:526-537 | a step keeps the registry exact if and only if it is neither a start for a tracked scan nor a terminal advance of a drone whose id is tracked to another |
| QueenRegistry.ExactIffNeverBreaks | bbot_bee/queen.py:439-444 | over a run the registry is exact at every point if and only if neither of the two ever happens |
| QueenRegistry.TrackedExactly | bbot_bee/queen.py:303-327 | in runs without the two breaking steps the tracked set is exactly the drones created and not yet terminal |
| QueenRegistry.LateAbortUntracks | bbot_bee/queen.py:529-530 | a run from the start in which a finished drone's late ABORTED untracks the live drone that reuses its id |
| QueenRegistry.CapacityHolds | bbot_bee/queen.py:307-323 | the tracked count never exceeds the largest limit that has been in force |
| QueenRegistry.NoGrowthAtLimit | bbot_bee/queen.py:461-466 | while a limit stands, a count at or above it never grows |
| QueenRegistry.CountStep | bbot_bee/queen.py:146-148 | the count grows only by one, and only from strictly below the current limit |
| QueenEndToEnd.PipesRun | bbot_bee/drone.py:317-322 | for a drone alone with its scan id, what its process wrote is what was accepted ++ what is unread, and events_sent counts the accepted events |
| QueenEndToEnd.EndToEndFifo | bbot_bee/drone.py:317-322 | the lines of one kind of such a drone are, in order, on the wire, held, buffered, or in the pipe, whatever happens to other kinds and scans |
| Bee.QueenInBee | bbot_bee/queen.py:313-327 | the queen inside the bee makes a run of the queen's own system |
| Bee.BeeRun | bbot_bee/drone.py:287-353 | in every run each drone is in a state of some run of its own, its record has its status, status lines stand in order among the unread events, and a reader that ended normally left a closed, drained pipe |
| BeeTheorems.VerdictFindsPipes | bbot_bee/drone.py:372-397 | when the monitor decides, each reader has ended at a closed, drained pipe or has raised |
| BeeTheorems.VerdictComesLast | bbot_bee/drone.py:372-397 | if the reader ended normally, the stream was orderly and nobody else holds it, and the report's sends succeed, every line the process wrote precedes the status message on the wire, in order |
| BeeTheorems.ReportedStatusComesLast | bbot_bee/drone.py:308-322 | if the stream was orderly and nobody else holds it, and the report's sends succeed, every event the process wrote before a terminal status line precedes the status message on the wire, in order |
| BeeTheorems.RaisedReaderRun | bbot_bee/drone.py:372-376 | a run from the start in which a reader raised early and the monitor decides FINISHED with an event unread |
| BeeTheorems.UnreadForever | bbot_bee/drone.py:293-333 | what a raised reader left unread stays unread in every continuation |
| DroneInQueen.QueenFollowsReports | bbot_bee/queen.py:505-537 | in any run of the queen, the record of a drone is the join of its reports and the callbacks run are the strict maxima among them |
| BeeTheorems.QueenFollowsDrone | bbot_bee/drone.py:456-462 | in every interleaving the queen's record of a drone has the drone's status, she ran exactly its announced callbacks in order, and does not track it once terminal |
| QueenFlush.ChunksShape | bbot_bee/queen.py:604-607 | batches are non-empty, at most the batch size, all but the last full, as many as the division rounded up |
| QueenFlush.SendListBatches | bbot_bee/queen.py:604-617 | the inner loop sends those batches and, on a failure, leaves exactly the unsent suffix after whole full batches |
| QueenFlush.FlushConserves | bbot_bee/queen.py:600-617 | a flush under any failures keeps delivered ++ buffered of every stream in order |
| QueenFlush.FlushEmpties | bbot_bee/queen.py:600-617 | a failure-free flush empties every key it visits |
| QueenFlush.FlushKindDelivers | bbot_bee/queen.py:600-636 | if every send succeeds, a flush of a kind delivers everything buffered of it behind what was delivered before and leaves nothing; the other kind it never touches |
| QueenFlush.FlushKindOffersAll | bbot_bee/queen.py:602-617 | whatever fails, every list of the kind buffered at entry is offered to a send of its own |
| QueenFlush.RetryDeliversTheSame | bbot_bee/queen.py:619-636 | repeated flushes under any failure schedule that empty a stream deliver what was buffered of it behind what was delivered, which is what one failure-free flush delivers |
| QueenFlush.DriveIsFlush | bbot_bee/queen.py:600-617 | the step system's flusher, left alone, computes the nested loops |
| QueenFlush.ZeroBatchSizeNeverEnds | bbot_bee/queen.py:604-606 | with batch size 0, after any number of successful sends the flusher is where it was and only empty batches are out |
| QueenObject.Queen.Accept | bbot_bee/queen.py:496-503 | appends the line to its scan's list, creating it when missing, and touches no other list |
| QueenObject.Queen.FlushList | bbot_bee/queen.py:604-617 | the while loop sends and re-buffers as its specification, whose batching and conservation are lemmas |
| QueenObject.Queen.FlushBuffer | bbot_bee/queen.py:600-617 | the for loop over the keys buffered at entry computes the flush; while connected it delivers everything buffered of the kind and leaves nothing, and it never touches the other kind |
| QueenObject.Queen.HandleStatusChange | bbot_bee/queen.py:526-546 | untracks a terminal scan even when the send raises, flushes events then logs, then sends the status last; while connected everything buffered is delivered before it |
| QueenObject.Queen.HandleStart | bbot_bee/queen.py:303-323 | admits exactly a new, valid scan strictly below the limit; otherwise FAILED is reported, last on the wire if its send succeeds |
| QueenObject.Queen.SetMaxScans | bbot_bee/queen.py:461-466 | the limit changes and a state_sync with matching figures goes out or nothing does |
| Containment.EnrolledBeforeForking | bbot_bee/cgroup.py:260-268 | enrolled by itself or by populate before its first fork, the scan's whole tree is in its cgroup in every interleaving |
| Containment.NothingSurvivesTheKill | bbot_bee/cgroup.py:270-297 | after such an enrolment and a later kill no process of the tree ever runs again |
| Containment.KillSweepsTreeIff | bbot_bee/cgroup.py:270-297 | a kill stops the whole tree if and only if every running process of it is a member |
| Containment.EarlyForkEscapes | bbot_bee/scan_process.py:341-364 | a child forked before enrolment outlives the kill |
| Containment.InsideRun | bbot_bee/scan_process.py:341-368 | once the root is inside nobody of the tree strays |
| Kernel.StillForever | bbot_bee/cgroup.py:203-205 | a cgroup with no running member never has one again unless something is enrolled |
| Kernel.ExitedMembersAreReapable | bbot_bee/cgroup.py:42-60 | once every member of a self-contained cgroup has exited, in whatever order, all are zombies for the bee to reap |
| Cgroup.DirNameIsInjectiveChild | bbot_bee/cgroup.py:226-231 | distinct scans have distinct directories, each a direct `scan_` child of the parent |
| Cgroup.TrailingNewlinePasses | bbot_bee/cgroup.py:21-24 | the pattern accepts an allowed word followed by a newline |
| Cgroup.AllowedIffNoNewline | bbot_bee/cgroup.py:21-24 | an accepted id is a word of the allowlist exactly if it holds no newline |
| Cgroup.Host.ReapZombies | bbot_bee/cgroup.py:42-60 | terminates, reaps exactly the zombie children and counts them |
| Cgroup.Host.WaitDrained | bbot_bee/cgroup.py:160-191 | at most ceil(timeout/interval) polls, reaping before each; True only when empty or absent, False only after the timeout; first poll suffices when all members are zombie children |
| Cgroup.Host.Kill | bbot_bee/cgroup.py:270-297 | no member runs afterwards; the count is the membership at the time; no-op on an absent directory |
| Cgroup.Host.Sweep | bbot_bee/cgroup.py:270-343 | after kill, wait_empty and cleanup no member runs, still cgroups stay still, nobody outside was killed, and the directory is gone exactly if it was empty and the OS allows it |
| Cgroup.Host.TearDown | bbot_bee/drone.py:378-381 | no member runs and nobody else was killed; the directory is gone or is still a recoverable child; gone if it drained and the OS does not refuse |
| Cgroup.Host.RecoverOne | bbot_bee/cgroup.py:143-153 | one orphan's members are killed, nobody else; it is removed, refused by the OS, or costs its full two seconds |
| Cgroup.Host.RecoverOrphans | bbot_bee/cgroup.py:120-157 | only scan directories go and exactly the returned number; those that stay were refused or timed out; nobody runs in any of them unless the OS refused the kill; nobody outside was killed |
| ScanProcess.Process.Dispatch | bbot_bee/scan_process.py:193-213 | exactly one reply with the command's name and request id: unknown if and only if the name is none of the seven, success with the handler's data if and only if it returned, failure with its error if and only if it raised |
| ScanProcess.Process.ReadCommands | bbot_bee/scan_process.py:216-233 | replies to exactly the commands among the lines, in order |
| ScanProcess.CommandsAt | bbot_bee/scan_process.py:216-233 | every command line is picked and none other, in order |
| ScanProcess.AnswersAt | bbot_bee/scan_process.py:193-213 | reply i has command i's name and request id; Success(p) if and only if the name is one of the seven and the handler returned p, Failure(e) if and only if it raised e, Unknown if and only if the name is none of the seven |
| ScanProcess.AnswersMatchRequests | bbot_bee/scan_process.py:216-233 | answering in two parts is answering the whole |
| ScanProcess.OutcomeRoundTrip | bbot_bee/scan_process.py:297-305 | the scanner's outcome, encoded as exit code and read by the monitor, is the drone's final status |
| Commands.RepliesInOrder | bbot_bee/drone.py:324-330 | per drone, replies handled ++ replies on stdout = answers to the consumed commands, in forwarding order, with their request ids |
| Commands.RefusedIffNotRunning | bbot_bee/queen.py:468-494 | with an unbroken registry a command is answered by the queen, once, with its id, if and only if no live drone of the scan has a running process or the write breaks the pipe; scan_not_active exactly if no drone of it is live |
| Commands.CommandsAccounted | bbot_bee/queen.py:468-494 | every command forwarded is answered at the queen, once, or in its process's pipes, or dropped by an untranslated error |
| Commands.EveryCommandAnsweredIff | bbot_bee/drone.py:278-285 | at any moment the requests answered are the requests made, as multisets, if and only if nothing is in any pipe and no write to a running process failed with an untranslated error |
| CommandAnswers.AnswerableIff | bbot_bee/drone.py:273-285 | for every run: some continuation without new commands answers everything asked if and only if nothing was dropped, and every drone with something in its pipes has a process that consumes it and a reader that reads, or will read, what comes out |
| CommandAnswers.StrandedForever | bbot_bee/scan_process.py:216-233 | a command or reply in a pipe nobody will empty stays there in every continuation, and the requests answered are never the requests made |
| CommandAnswers.ProcessDiesFirst | bbot_bee/drone.py:275-282 | a run from the start in which a command is accepted and the process dies before consuming it |
| CommandAnswers.ListenerStopsFirst | bbot_bee/scan_process.py:284-295 | a run from the start in which the scan ends and the process, still alive, cancels its command reader |
| CommandAnswers.DrainRaises | bbot_bee/drone.py:280-285 | a run from the start in which the drain raises an untranslated error and the command is dropped |
| PendingStops.NoStaleEntry | bbot_bee/queen.py:357-370 | no stop whose callback has run is listed |
| PendingStops.CoverStepIff | bbot_bee/queen.py:446-459 | a step keeps every stop in flight listed if and only if it starts no second stop for a scan with one in flight |
| PendingStops.EntriesAreInFlightIff | bbot_bee/queen.py:646-651 | throughout a run the entries are the stops in flight if and only if stops of one scan never overlap |
| PendingStops.StopTable.StopScan | bbot_bee/queen.py:446-459 | the new task is listed under its scan |
| PendingStops.StopTable.OnStopDone | bbot_bee/queen.py:357-370 | nothing is listed under the scan any more |
| PendingStops.StopTable.Gathered | bbot_bee/queen.py:646-651 | shutdown gathers exactly the listed tasks, which is all in flight if and only if the table covers them |

## Left out

- The reliable channel, the websocket, heartbeats and backoff: only the two outcomes of `send` remain.
- `Queen.run`, its reconnect loop and `_state_sync_loop`: a disconnect appears as cancellation of tasks; a flush
  loop's final flush on cancellation is a cancellation followed by a new flush.
- `stop_all` and the order of `shutdown`'s phases: only what its gather covers is modelled.
- The bodies of the subprocess's query handlers: a handler returns data or raises.
- JSON, UTF-8, ANSI stripping and line limits: lines are abstract messages; a JSON line that is not an object is not modelled.
- `detect_cgroup_kill_supported` and its failure texts: assumed to have succeeded.
- The `cgroup.procs` fallback of `_wait_cgroup_drained`, for kernels without `cgroup.events`.
- `Drone.wait`: tests only.
- Timestamps in status payloads, log texts, configuration, command line and container files.
- Command routing, the joined bee, enrolment and `create`/`populate` are modelled on values rather than objects; aliasing is not captured there.
- The message loop's suspension in `drain`: forwarding a command and the drain's outcome are one step.
- A reader's suspension in its own status callback: the bee also allows runs in which it reads on meanwhile.
- A drain that raises ConnectionResetError also ends the queen's message loop until she reconnects; here later commands may follow at once.
- That two drones of one scan id share a cgroup directory, so that the second `create()` raises while the first lives: drones of one id are independent here.
- The order of replies relative to events and status lines on stdout; only events and status lines are ordered.
- One clock for all drones: each drone of the bee has its own, so nothing relates times of two drones.
- Pids are not reused while a process of the tree still carries them; a reaped pid leaves the tree.
- A timer's lateness is bounded by the parameter `lag`; how long `wait_empty` blocks the loop is not derived.
