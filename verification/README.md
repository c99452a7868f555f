# Container runtime: a verified model

The repository is a small container runtime: a user-space supervisor (`engine.c`) that starts,
watches and stops up to ten containers and collects their output, and a kernel module
(`monitor.c`) that warns about and kills containers over their memory limits. This project models
its concurrent core in Dafny and proves what holds over every run.

| part | modules | form |
|---|---|---|
| bounded log buffer | `LogQueue`, `LogRing`, `LogSync` | a FIFO value; the array ring as a class that refines it; a machine of many threads with sleeping and woken sets |
| container table | `Containers`, `ContainerTable` | each critical section as a function on the table; the in-place array code as a class that refines it |
| supervisor | `Lifecycle`, `SlotInvariant`, `Exclusivity`, `SlotHistory`, `ChildInvariant`, `Records`, `OwnRecords`, `Order`, `Reaping`, `Outcomes`, `Calls`, `Stops`, `Resources`, `Witnesses` | a machine whose steps are critical sections, system calls and allocations of any number of client threads, the producers and the reaper |
| log path | `Pipeline`, `Routing`, `Output`, `LogLoss` | the supervisor, the buffer, one producer per container, the consumer and the files, interleaved |
| kernel monitor | `MonitorPolicy`, `MonitorRuns`, `MonitorUnits`, `MonitorList` | the policy on sequences and over whole runs; the doubly linked list on the heap, refining the policy |
| both sides | `Watch`, `StrayKill` | the supervisor and the monitor's list interleaved: registration outside the lock, unregistration with the record, passes at any time |
| loops | `Framing`, `PsOutput`, `Flags` | methods with loops proved against functions, and lemmas about those functions |
| shared | `CTypes` | sizes of C types |

In the machines a run is a sequence of states and a sequence of labels (`IsRun`); a theorem about
`states[k]` is a theorem about every reachable state. History fields (`hist`, `ledger`,
`accepted`, `read`, `before`, ...) record what happened; all they do to a step is keep the names of
new resources and new children fresh. No order is imposed on the main thread's shutdown sequence
(engine.c:904-911), on client threads or on the children, and the reaper's `waitpid`, its lookup
and its test of `supervisor_running` are separate steps. A child is a process with an identity of
its own beside its pid, so that the model can tell whose wait status a slot shows when the kernel
hands a pid out again; the kernel is only assumed not to do so before the old child is reaped.

A condition variable wait is modelled as leaving the critical section and entering it again later,
following pthread_cond_wait, pthread_cond_signal and pthread_cond_broadcast in chapter 3 of the
System Interfaces volume of IEEE Std 1003.1-2017: a signal unblocks at least one sleeper if there
is one, and sleepers may wake spuriously at any time.

Where the program and its documentation disagree, the model follows the program:

- "No data dropped" (line 89 of the repository's README.md) holds for accepted chunks only. A chunk already read when the
  buffer shuts down is lost (`LogLoss.LossHappens`); `Output.LossExactly` says exactly when, and
  `Output.ProducerLosesAtMostOneChunk` bounds the loss.
- project-guide.md:240 reserves the hard-limit verdict for SIGKILL. The reaper writes KILLED for
  every signal (engine.c:708-712); only the exit code 137 singles SIGKILL out
  (`Reaping.RecordTellsTheOutcome`); death by SIGTERM without a stop request shows KILLED 143
  (`Witnesses.KilledWithoutSigkill`).
- Slots keep their pid after exit and the reaper takes the first match, so a reused pid can be
  recorded in the wrong slot, the older container's (`Witnesses.ReusedPidHitsTheOldSlot`) or the
  newer one's (`Witnesses.ReusedPidEndsTheNewcomer`). `Records.RecordsAreRightExactly` says when:
  exactly if some lookup was shadowed, that is, another child with the same pid had been published
  in an earlier slot. A run is called clean for a pid if no lookup of that pid was shadowed; it is
  for every pid that is handed out once (`Records.FreshPidsAreClean`), and can be for others
  (`Witnesses.ReuseCanBeHarmless`). "In clean runs" below means: clean for the pid of the container
  or child in question.
- In every run a container is terminal exactly if some lookup found its slot
  (`Reaping.TerminalMeansMatched`), so exactly the others are left RUNNING when the reaper exits
  (`Reaping.ReaperExitLeavesUnmatched`). In clean runs that happens in exactly two ways
  (`Reaping.ReaperExitLeavesExactly`). The child was looked up between `clone` and the publication
  of its pid (`Witnesses.EarlyReapHappens`); then, as long as the run stays clean, its container
  shows RUNNING and a `run` client on it does not return (`Reaping.EarlyStaysRunning`). Or the
  container was started after `waitpid` reported no child and before the reaper read
  `supervisor_running` (`Witnesses.LateStartHappens`). A shadowed lookup is a third way
  (`Witnesses.ShadowedAtExitHappens`).
- `stop` on a container that is still STARTING calls `kill(-1, SIGTERM)`
  (`Witnesses.EarlyStopSignalsEveryone`, `Reaping.StopSignalsItsOwnChild`). A pid read under the lock
  and signalled after it may by then belong to another container
  (`Witnesses.LateStopHitsAnother`, `Reaping.SignalReachesItsOwnChildExactly`), and since `waitpid`
  runs outside the lock, so may one signalled under it
  (`Reaping.SlotSignalReachesItsOwnChildExactly`).
- A start registers its child with the kernel after publishing it and outside the lock, so the
  reaper may unregister the pid first; the monitor can then kill another container that got the
  pid, for the limits of the first (`StrayKill.StrayKillHappens`, `Watch.KillHitsAnotherExactly`).
- The engine's flag parser accepts a soft limit above the hard one (`Flags.EngineTakesMore`,
  `Flags.ParsersDifferExactly`), and then a process can be killed without a warning
  (`MonitorUnits.UnwarnedKillsExactly`). The starter-code parser takes a minus sign for
  limits (`Flags.NegativeMib`, `Flags.MinusZeroIsZero`).

## Model

| member | source | states |
|---|---|---|
| `LogRing.Ring.constructor` | engine.c:226-231 | the zeroed buffer is the empty open queue with empty histories |
| `LogRing.Ring.TryPush` | engine.c:241-260 | one pass of push on the array ring does to its contents what the FIFO does (wait when full and open, refuse after shutdown, else append), keeps tail = head + count modulo 128, and keeps pushed = popped + contents across wraparounds |
| `LogRing.Ring.TryPop` | engine.c:262-281 | one pass of pop waits, closes or takes the oldest entry, keeping the same invariants |
| `LogRing.Ring.Stop` | engine.c:233-239 | shutdown changes the flag and no entry |
| `LogRing.StepsAreAt` | engine.c:254-255 | the source's `(i + 1) % 128` steps walk the ring: position count after head is (head + count) mod 128, also after head or tail moves |
| `LogRing.UnrollPop` | engine.c:274-276 | moving head by one removes exactly the oldest entry from the ring's contents, at every head including the wraparound |
| `LogSync.InvHolds` | engine.c:233-281 | in every reachable state with any number of producers and consumers: FIFO (handed out + buffered = accepted), at most 128 buffered; if a producer sleeps then count + woken producers >= 128, if a consumer sleeps then count <= woken consumers; nobody sleeps after shutdown |
| `LogSync.NoCallIsStranded` | engine.c:241-281 | a pending push can return exactly when there is room or shutdown, a pending pop exactly when there is an entry or shutdown: no wakeup is ever lost |
| `LogSync.NoDeadlock` | engine.c:241-281 | with a push and a pop pending one of the calls can return, and both sides are never asleep with nobody woken |
| `LogSync.ShutdownIsFinal` | engine.c:233-239 | after shutdown no thread is asleep or ever sleeps again, nothing more is accepted, entries only move from the buffer to consumers |
| `LogSync.ClosedMeansDrained` | engine.c:262-272 | a consumer is told to exit only when every accepted entry was handed out in order, and that stays so |
| `LogSync.DrainStep` | engine.c:233-281 | after shutdown each pass of pop ends the call, taking exactly one entry or finding the buffer drained; each pass of push ends refused |
| `Containers.LogPathIsInjective` | engine.c:468 | `logs/<id>.log` is never truncated and differs for different ids |
| `Containers.ClaimExactly` | engine.c:442-479 | a start is admitted exactly when its id is new, its rootfs is not in live use and a slot is free; the first free slot then holds the request untruncated, all others are unchanged; a refused start changes nothing |
| `Containers.RefusalsExactly` | engine.c:444-462 | which of the three refusals a start gets: a used id first, then a rootfs in live use, then a full table |
| `Containers.RequestStopExactly` | engine.c:646-664 | with unique ids a stop is accepted exactly if a used live slot has the id; that slot is marked, its pid is the one to signal, nothing else changes; otherwise the two refusals are told apart exactly and nothing changes |
| `Containers.StopAllExactly` | engine.c:749-761 | shutdown marks exactly the used live slots and changes nothing else |
| `Containers.RecordExactly` | engine.c:693-734 | the first used slot with the pid, and no other, gets the exit code, or 128 plus the signal, or -1; STOPPED if a stop was requested, else EXITED or KILLED; its stack pointer is cleared; without such a slot nothing changes |
| `Containers.StopAllTargetsAreLive` | engine.c:749-761 | shutdown signals the pids of the used live slots and no others |
| `Containers.RecordDeterminesOutcome` | engine.c:698-717 | without a stop request (state, exit code) determines the wait outcome; KILLED with 137 exactly for SIGKILL |
| `Containers.StoppedRecordIsAmbiguous` | engine.c:698-717 | with a stop request exactly the exit codes 129..254 can also mean a signal |
| `ContainerTable.Table.constructor` | engine.c:314-319 | all ten slots start zeroed |
| `ContainerTable.Table.FindFree` | engine.c:287-292 | the loop finds the first unused slot or -1 |
| `ContainerTable.Table.FindById` | engine.c:294-301 | the loop finds the first used slot with the id or -1 |
| `ContainerTable.Table.IsRootfsInUse` | engine.c:303-312 | the loop says whether some used live slot has the rootfs |
| `ContainerTable.Table.Claim` | engine.c:442-479 | the in-place section refines the function the machine uses, refusals included |
| `Containers.UnclaimForgets` | engine.c:481-487 | a rollback, whatever happened to other slots meanwhile, leaves a table that treats every later request as if this slot had never been used |
| `Containers.UnclaimUndoesClaim` | engine.c:481-487 | with nothing in between, rolling a failed start back undoes its claim: every later request gets the outcome it would have got had the start never been made, and the other containers are as they were |
| `Containers.PublishKeepsAdmission` | engine.c:554-558 | publishing changes the outcome of no later request (the claim alone decides), and makes the container the reaper's match for its pid exactly if no earlier slot shows that pid |
| `ContainerTable.Table.RequestStop` | engine.c:646-664 | the section refines the function the machine uses, both error cases included |
| `ContainerTable.Table.StopAll` | engine.c:749-761 | marks exactly the used live slots and signals their pids in index order |
| `ContainerTable.Table.Record` | engine.c:693-734 | updates the first used slot with the pid by the classification rules, frees its stack if it has one, and no other slot |
| `SlotInvariant.InvHolds` | engine.c:442-558 | in every interleaving the used slots are exactly the claimed ones (STARTING, pid -1, no stack, one start call each) and the published ones (RUNNING or terminal, real pid); `run` clients sleep on RUNNING slots only; successful starts = published slots |
| `SlotInvariant.StepEvolves` | engine.c:481-734 | every step other than a claim changes a slot in one of five ways only |
| `Exclusivity.ExclusiveAlways` | engine.c:442-479 | in every interleaving of starts, rollbacks, stops and reaps no two used slots share an id and no two live ones a rootfs, and log files are named after ids |
| `Exclusivity.NothingShared` | engine.c:287-312 | the same for any two slots, with distinct log files |
| `SlotHistory.StepIsLoose` | engine.c:464-734 | without any assumption on pids a slot moves along the life graph or from one terminal state to another |
| `SlotHistory.AttributionHolds` | engine.c:698-717 | in every reachable state EXITED and KILLED mean no stop was requested, a requested stop ends STOPPED, STOPPED without request has exit code -1 |
| `SlotHistory.SignalledMeansStopped` | project-guide.md:236-239 | whenever SIGTERM is about to go or has gone to a container seen RUNNING its stop is on record, so it is RUNNING or STOPPED, never EXITED or KILLED |
| `SlotHistory.PublishedForever` | engine.c:554-558 | published slots stay published |
| `SlotHistory.PublishedStaysUsed` | engine.c:554-558 | a published slot is never free or STARTING again |
| `SlotHistory.IdentityForever` | engine.c:464-479 | a published slot keeps its pid, id, rootfs, command, log file, limits, niceness and start time for the rest of the run |
| `SlotHistory.AtMostTenStarts` | engine.c:457-462 | a whole run has at most ten successful starts |
| `ChildInvariant.InvHolds` | engine.c:519-734 | whatever pids are handed out: every child is unreaped, in the reaper's hands or looked up, and only one of these; each published child has one slot and each published slot one child, whose pid it shows for good; a record went to a slot showing the child's pid |
| `ChildInvariant.ShownPids` | engine.c:555-557 | a used slot shows a pid exactly if it was published for a child with that pid |
| `Records.RecordGoesHomeExactly` | engine.c:693-734 | the record of a published child goes to its own slot exactly if no earlier used slot shows its pid, that of an unpublished one goes nowhere exactly if no used slot does; it is written to that slot and no other, whatever state it is in |
| `Records.RecordsAreRightExactly` | engine.c:693-734 | over a whole run, for each pid: every record of a child with that pid went to the slot its child was published in, or nowhere for an unpublished child, exactly if at no lookup of that pid another child with it had been published in an earlier slot |
| `Records.LookupDecides` | engine.c:693-734 | where a child's record went is decided once, at its lookup, and never changes |
| `Records.FreshPidsAreClean` | engine.c:695-696 | if a pid was not handed out twice, no lookup of it is shadowed |
| `OwnRecords.InvHolds` | engine.c:698-717 | in runs clean for pid p, a published slot showing p is terminal exactly when its own child was recorded, and then shows how that child ended; what `run` returned is still what the slot shows |
| `Order.UnrecordedMeansEarly` | engine.c:519-558 | in clean runs a published child that was looked up has no record exactly if the lookup came before the publication |
| `Order.UnreapedMeansLate` | engine.c:679-690 | while the reaper acts on an ECHILD, the unreaped children are exactly those cloned since |
| `Records.MatchExactly` | engine.c:695-696 | the reaper's first match is the slot the child was published in (none, if it was not) exactly if the child is not shadowed |
| `Reaping.RecordedInItsOwnSlot` | engine.c:693-734 | in clean runs a recorded child is recorded in exactly one slot, its own, with the classification of its wait status, and no other child is recorded there |
| `Reaping.RecordTellsTheOutcome` | project-guide.md:236-241 | in clean runs a finished container without a stop request shows exactly one possible wait outcome, that of its own child; KILLED 137 exactly for SIGKILL |
| `Reaping.TerminalMeansMatched` | engine.c:693-734 | in every run, whatever pids are handed out, a container is terminal exactly if some lookup found its slot |
| `Reaping.ReaperExitLeavesUnmatched` | engine.c:676-738 | in every run a published container is left RUNNING when the reaper exits exactly if no lookup found its slot |
| `Reaping.ReaperExitLeavesExactly` | engine.c:676-738 | in clean runs a published container is left RUNNING when the reaper exits exactly if its child was looked up before it was published or cloned after the last time `waitpid` found no child |
| `Reaping.AllTerminalAtExitExactly` | engine.c:676-738 | in runs clean for the pids of all published containers, all of them are terminal when the reaper exits exactly if no child of theirs was looked up too early or cloned too late |
| `Reaping.RunReportsItsOwnChild` | engine.c:783-803 | in clean runs `run` returns the state and code of the very process it cloned, and its slot still shows them |
| `Calls.ServesItsRequest` | engine.c:777-800 | a call waits for its container exactly if the request that began it asked to `run` |
| `Calls.OnlyRunsWait` | engine.c:777-800 | only calls begun by a `run` request ever sleep or report |
| `Calls.RunLooksAndReports` | engine.c:789-797 | a `run` call that is awake can always look at its slot: terminal, it returns the slot's state and exit code; live, it goes to sleep; nothing else changes |
| `Calls.RecordWakesTheSleepers` | engine.c:719 | the record of a slot wakes every client asleep on it |
| `Calls.SlotShowsItsRequest` | engine.c:464-479 | until it fails, a call's slot shows the request that began it: id, rootfs, command, log file, limits, niceness, start time |
| `Calls.FailureIsRolledBack` | engine.c:481-549 | after a failed pipe, allocation or clone the call's next step gives its slot back, and then it has failed |
| `Calls.PublishedStartGotAll` | engine.c:481-541 | a published start has acquired both pipe ends, the stack and both argument blocks |
| `Outcomes.SlotShowsTheStatus` | engine.c:698-717 | of the labels alone, in clean runs: a child published, then looked up, and returned by `waitpid` with a status is shown by its slot with its own exit code, or 128 plus its signal, or -1, and the state that fits the stop request |
| `Outcomes.RunReportsTheStatus` | engine.c:783-803 | in clean runs what `run` returns is the exit code, or 128 plus the signal, that `waitpid` returned for the very child it cloned |
| `Outcomes.ReapedOnce` | engine.c:681 | `waitpid` returns each child at one step and with one status |
| `Outcomes.FinishedExactly` | engine.c:683-690 | the reaper has exited exactly if, after an ECHILD, it tested `supervisor_running` when the supervisor had been told to quit |
| `Outcomes.ReaperComesBack` | engine.c:685-688 | before that, the test after an ECHILD sends the reaper back to `waitpid` |
| `Stops.StopMarksTheNamed` | engine.c:646-664 | in every run `stop id` marks the live container of that name and prepares a signal to its pid, and touches no other; without such a container it does nothing |
| `Stops.KillSendsThePrepared` | engine.c:667 | the signal sent is the one prepared, once |
| `Stops.StopAllMarksAndSignals` | engine.c:749-761 | shutdown marks and signals exactly the used live containers |
| `Stops.StopStaysWithTheNamed` | engine.c:646-667 | the slot a signal was read off, if RUNNING, stays the slot of the container that was named |
| `Reaping.NoRunSleepsOnAFinishedSlot` | engine.c:790-793 | no `run` client is asleep on a slot that is not RUNNING, in any run |
| `Reaping.StateAndPidAgree` | engine.c:469-477 | STARTING slots hold pid -1 and belong to one start call; other used slots hold a positive pid |
| `Reaping.TerminalIsFinal` | engine.c:646-662 | in clean runs a terminal record never changes again, whatever stops are requested later |
| `Reaping.SlotWalksTheGraph` | engine.c:464-734 | in clean runs every slot walks FREE -> STARTING -> (FREE or RUNNING -> terminal) with terminal states absorbing |
| `Reaping.StopSignalsItsOwnChild` | engine.c:656-667 | in every run each SIGTERM goes to the pid of the child published in its slot, except that it goes to -1 exactly when the slot was STARTING |
| `Reaping.SignalReachesItsOwnChildExactly` | engine.c:662-667 | a child that gets the signal of a pending `stop` is the one published in the slot exactly if that one has not been reaped yet |
| `Reaping.SlotSignalReachesItsOwnChildExactly` | engine.c:749-761 | the same for any running container, hence for the signals sent at shutdown under the lock |
| `Reaping.EarlyShowsRunning` | engine.c:519-558 | in clean runs a container whose child was looked up before it was published shows RUNNING, and no `run` call on it has returned |
| `Reaping.EarlyStaysRunning` | engine.c:519-558 | and so it stays for as long as the run is clean |
| `Witnesses.EarlyReapHappens` | engine.c:519-558 | a concrete run without reused pids that ends with no child left and the published container RUNNING |
| `Witnesses.LateStartHappens` | engine.c:679-690 | a concrete run without reused pids and without any lookup in which the reaper exits with a published container RUNNING and its child unreaped |
| `Witnesses.ShadowedAtExitHappens` | engine.c:695-696 | a concrete run in which the reaper exits with a published container RUNNING whose child was neither looked up too early nor cloned too late: its record went to another slot |
| `Witnesses.KilledWithoutSigkill` | engine.c:705-713 | a concrete run in which a container dies of SIGTERM without a stop request and shows KILLED 143 |
| `Witnesses.RunSleepsAndReturns` | engine.c:783-803 | a concrete run in which a `run` client sleeps, is woken and returns EXITED 3 |
| `Witnesses.ReaperSurvivesIdleness` | engine.c:685-688 | a concrete run in which the reaper finds no child, goes on, and records a container started afterwards |
| `Witnesses.ReusedPidHitsTheOldSlot` | engine.c:695-696 | a concrete run in which a reused pid overwrites EXITED 0 by KILLED 137 in the old slot and leaves the new one RUNNING |
| `Witnesses.ReusedPidEndsTheNewcomer` | engine.c:679-696 | a concrete run in which the pid is reused between `waitpid` and the lookup: the new container is marked EXITED 0 while alive, the one that exited stays RUNNING |
| `Witnesses.ReuseCanBeHarmless` | engine.c:539-549 | a concrete clean run in which the pid of a failed start is reused and every record is right |
| `Witnesses.LateStopHitsAnother` | engine.c:662-667 | a concrete run in which `stop` is about to signal a pid that by now belongs to another container |
| `Witnesses.EarlyStopSignalsEveryone` | engine.c:656-667 | a concrete run in which `stop` on a STARTING container sends SIGTERM to pid -1 |
| `Resources.InvHolds` | engine.c:481-558 | in every reachable state each pipe end, stack and heap block was released exactly once or has one holder (start call, slot or producer thread) that knows about it |
| `Resources.NothingFreedTwice` | engine.c:727-730 | across starts, producers and the reaper nothing is closed or freed twice in any run |
| `Resources.FailedStartReleasesAll` | engine.c:481-552 | a start failing at any step has released each thing it acquired exactly once |
| `Resources.FailedStartTouchesOnlyItsSlot` | engine.c:481-552 | the rollback clears `used` of the slot the call itself claimed, which is STARTING, and changes nothing else in the table |
| `Resources.SuccessfulStartLeaksNothing` | engine.c:536-560 | what a successful start acquired was released once, is the stack of its own slot, or is held by the slot's producer thread |
| `Resources.FinishedContainerHoldsNothing` | engine.c:358-386 | once a container is recorded and its producer thread has ended, everything its start acquired was released exactly once |
| `Routing.InvHolds` | engine.c:321-386 | the invariant of the whole log path in every interleaving of supervisor, producers, buffer and consumer |
| `Routing.LogsAreRouted` | engine.c:321-386 | for every published container: its file, then the chunk in the consumer's hand if it is its own, then its buffered chunks = the old file followed by exactly its accepted chunks in order |
| `Routing.FileHoldsOnlyItsOwn` | engine.c:330-352 | for ids without `/`, what was added to the file of a container are exactly the written chunks of that container, none of another's |
| `Routing.NothingElseIsWritten` | engine.c:330-344 | no other file is ever changed and the lookup never fails for an accepted chunk |
| `Routing.ExitMeansDelivered` | engine.c:324-328 | once the consumer has exited every accepted chunk is in its container's file |
| `Output.ReadsAreKept` | engine.c:365-377 | the chunks held as read by a producer are, chunk by chunk and byte by byte, what its `read` calls delivered |
| `Output.DoneExactly` | engine.c:365-382 | a producer reads on until end of file or a push after shutdown, and no longer |
| `Output.OutputIsAccountedFor` | engine.c:321-386 | for every producer: its container's file, then the chunk in the consumer's hand, the buffered chunks, the chunk being pushed and the dropped one are the file at the start followed by exactly the bytes its `read` calls delivered, in order |
| `Output.ProducerLosesAtMostOneChunk` | engine.c:358-386 | what was accepted from a producer is a prefix of the chunks its `read` calls delivered; it loses at most one chunk of at most 512 bytes, only to a shutdown |
| `Output.LossExactly` | engine.c:379-381 | bytes delivered by `read` to a producer that is not inside push are missing from what was accepted exactly if one of its pushes ran after shutdown |
| `Output.ExitMeansAllIsLogged` | engine.c:321-386 | once the consumer has exited, the log file is what it was followed by everything `read` delivered to the producer, exactly if none of its pushes ran after shutdown |
| `LogLoss.LossHappens` | engine.c:248-251 | a concrete run of the whole log path in which a chunk that was read is never accepted |
| `MonitorPolicy.RegisterRefines` | monitor.c:169-212 | registration sets the limits of one pid and clears its warning, or is refused exactly for bad arguments or lack of memory and changes nothing |
| `MonitorPolicy.UnregisterRefines` | monitor.c:214-226 | unregistration leaves no entry for the pid, touches no other, and reports whether there was one |
| `MonitorPolicy.TickRefines` | monitor.c:259-296 | a pass drops exactly the pids that are gone or have no memory map, marks those over soft, keeps the rest, and reports per pid independently of all others |
| `MonitorRuns.ListIsAMap` | monitor.c:60-85 | over every sequence of operations the list is a finite map: pids unique and positive, hard limits nonzero, each pid's entry depending on its own operations only |
| `MonitorRuns.OneWarningPerEpoch` | monitor.c:183-204 | throughout a registration epoch the entry carries that registration's limits, and exactly one warning was issued if some pass saw RSS above soft, else none |
| `MonitorRuns.TrackedMeansEpoch` | monitor.c:181-212 | every tracked pid is in an epoch: its entry is that of the latest accepted registration |
| `MonitorRuns.UntrackedIsLeftAlone` | monitor.c:259-296 | a pid that is not tracked is never warned about, dropped or killed |
| `MonitorRuns.KillsExactly` | monitor.c:285-296 | a pass kills a pid exactly if it is tracked and its RSS exceeds the hard limit, once |
| `MonitorRuns.EventsExactly` | monitor.c:259-296 | what a pass reports about a pid, value by value: removal, one warning with its size and soft limit, one kill with its size and hard limit, the warning first, and nothing else |
| `MonitorRuns.NoKillWithoutWarning` | monitor.c:279-296 | with soft <= hard a kill in an epoch is preceded or accompanied by its one warning, and the epoch goes on |
| `MonitorRuns.UnwarnedKillExactly` | monitor.c:279-296 | a kill comes without any warning in its epoch exactly if no pass of the epoch up to it saw RSS above soft |
| `MonitorUnits.RssIsExactUnlessItWraps` | monitor.c:135-137 | the MiB figure is the true size rounded down exactly when the byte count fits 64 bits |
| `MonitorUnits.HardLimitInBytes` | monitor.c:135-137 | over hard means RSS bytes >= (hard + 1) * 2^20, so the slack is under 1 MiB |
| `MonitorUnits.UnwarnedKillNeedsSoftAboveHard` | monitor.c:279-296 | a resident size that kills without warning exists exactly when soft > hard and hard is within reach of 64-bit byte counts |
| `MonitorUnits.UnwarnedKillsExactly` | monitor.c:279-296 | some run kills a process without ever warning about it exactly if its registration is valid with soft > hard and hard within reach of 64-bit byte counts |
| `Watch.InvHolds` | engine.c:562-566 | in every interleaving of supervisor, registrations, unregistrations and passes, an entry of the monitor's list belongs to the child of some published container and carries that container's limits, converted from `int` to `unsigned long` |
| `Watch.RegistrationTakesEffect` | engine.c:562 | a registration is accepted exactly if the device opens, the hard limit is not zero and there is an entry or memory for one; then the pid is tracked with its container's limits, unwarned, and no other pid changes |
| `Watch.RecordUnregisters` | engine.c:721 | the reaper's record makes the pid untracked if a used slot shows it and the device opens; no other step of the supervisor touches the list |
| `Watch.EntryHasRegistration` | engine.c:721-725 | every entry goes back to a registration of its child after which its pid was not unregistered |
| `Watch.KillHitsAnotherExactly` | engine.c:562-566 | a kill acts on one container's registration and hard limit; it hits another container's child exactly if the registered child is in the reaper's hands, or was looked up before it was registered or without being unregistered |
| `StrayKill.StrayKillHappens` | engine.c:562-566 | a concrete run in which a container at 100 MiB with a limit of 128 is killed for the limit of 64 of another one that has exited |
| `MonitorList.Node.constructor` | monitor.c:195-205 | a new entry is unwarned, carries the request's limits and points at itself |
| `MonitorList.List.constructor` | monitor.c:47 | the sentinel alone is a well-formed empty ring |
| `MonitorList.List.Find` | monitor.c:60-70 | the traversal returns the node of the first entry with the pid, or null exactly if there is none |
| `MonitorList.List.Unlink` | monitor.c:78 | `list_del` joins the neighbours so that the ring without the node is linked both ways throughout |
| `MonitorList.List.Remove` | monitor.c:78-79 | unlinks and frees one node, frees no other, and leaves a well-formed ring of the others in order |
| `MonitorList.List.Append` | monitor.c:207 | `list_add_tail` puts the node last and leaves a well-formed ring |
| `MonitorList.List.Register` | monitor.c:169-212 | the in-place code refines the policy, all replies included |
| `MonitorList.List.Unregister` | monitor.c:214-226 | the deletion-safe traversal refines the policy |
| `MonitorList.List.Tick` | monitor.c:252-303 | the pass visits each original entry exactly once in order, never reads a freed node, frees exactly the entries to be dropped, keeps the survivors in order in a well-formed ring, and emits the policy's events |
| `MonitorList.List.Teardown` | monitor.c:359-371 | module exit frees every node once and leaves the empty ring |
| `Framing.SendAll` | engine.c:141-153 | for every schedule of calls the bytes on the wire are a prefix of the buffer, of the length the schedule allows |
| `Framing.RecvAll` | engine.c:155-168 | for every schedule the buffer starts with the stream's first bytes and its rest is untouched |
| `Framing.Exchange` | engine.c:141-168 | if both loops succeed the receiver's struct equals the sender's byte for byte |
| `Framing.SendDoneIsComplete` | engine.c:141-153 | success is reported exactly when all bytes went out |
| `Framing.RecvDoneIsComplete` | engine.c:155-168 | success is reported exactly when all bytes came in |
| `Framing.SendFailsExactly` | engine.c:141-153 | sending fails exactly if a call breaks before enough was offered, and is still going exactly if none breaks and not enough was offered |
| `Framing.RecvFailsExactly` | engine.c:155-168 | receiving fails exactly if a call breaks, or finds the end of the stream, before the struct is complete |
| `Framing.SendFinishes` | engine.c:141-153 | without a broken call sending finishes exactly when the calls move enough bytes, however many interruptions and short calls there are |
| `Framing.RecvFinishes` | engine.c:155-168 | the same for receiving while the peer provides the bytes and no call reports end of file |
| `Framing.ShortStreamIsNeverDone` | engine.c:159 | a stream that ends early is never taken for a whole struct |
| `PsOutput.TextIsShort` | engine.c:575-606 | the header and i rows take at most 99 + 404 i characters, so ten rows stay below 8192 |
| `PsOutput.RowIsShort` | engine.c:589-600 | one row takes at most 404 characters whatever the field values |
| `PsOutput.BuildPs` | engine.c:575-606 | the buffer ends up with the header and one complete row per used slot in index order, terminated; the remaining size never reaches zero and the early break is never taken |
| `PsOutput.RowReadsBack` | engine.c:589-600 | a printed row, split at its tabs, is id, pid, state, exit code, soft limit, hard limit, niceness, start time and log file of the slot |
| `PsOutput.NumberReadsBack` | engine.c:589-600 | a printed number reads back as that number |
| `PsOutput.StateNames` | engine.c:469-716 | the names of the states as printed |
| `PsOutput.TextReadsBack` | engine.c:575-606 | the text, split at its newlines, is the title line and one line per used slot, each right after those of the used slots before it |
| `PsOutput.ReachableStringsFit` | engine.c:464-468 | the string bounds that `BuildPs` relies on hold in every reachable table |
| `PsOutput.ReachableTableFits` | engine.c:575-606 | every reachable table whose numbers are 32-bit meets the hypotheses of `BuildPs`: its text is shorter than 8192 |
| `Flags.ParseStarter` | boilerplate/engine.c:167-219 | the loop over argv computes the recursive specification |
| `Flags.ParseEngine` | engine.c:973-989 | the engine's loop computes its recursive specification |
| `Flags.MibIsExact` | boilerplate/engine.c:144-165 | an accepted limit is its mebibytes times 2^20 without wrapping |
| `Flags.NumeralScans` | boilerplate/engine.c:151-155 | the numeral of any number, with an optional sign, scans as exactly that number |
| `Flags.BlanksAreSkipped` | boilerplate/engine.c:151-155 | leading blanks change nothing |
| `Flags.TrailingTextIsRefused` | boilerplate/engine.c:153-156 | text after the digits is refused by the starter parser and ignored by `atoi` |
| `Flags.NumeralIsMebibytes` | boilerplate/engine.c:151-164 | the numeral of n is n mebibytes, or refused exactly if that does not fit 64 bits |
| `Flags.NegativeMib` | boilerplate/engine.c:151-164 | `-m` is accepted exactly when m is zero or 2^64 - m mebibytes fit 64 bits |
| `Flags.MinusZeroIsZero` | boilerplate/engine.c:151-164 | for instance "-0" is accepted as zero |
| `Flags.MinusMaxIsOne` | boilerplate/engine.c:151-164 | and minus 2^64 - 1 is accepted as one mebibyte |
| `Flags.LoopTakesLast` | boilerplate/engine.c:174-210 | each field is its last occurrence or the default |
| `Flags.AcceptanceMeans` | boilerplate/engine.c:167-219 | on acceptance soft <= hard, nice is in -20..19, each field is its last occurrence or the default |
| `Flags.AcceptsExactly` | boilerplate/engine.c:167-219 | accepted are exactly the lists of known flags with valid values whose resulting limits are in order |
| `Flags.EngineExactly` | engine.c:973-989 | on every argument list the engine accepts exactly known flags with one value each, and each field is `atoi` of the last occurrence of its flag or the default |
| `Flags.ParsersAgree` | engine.c:973-989 | on accepted lists of plain decimals in int range the engine parser accepts too and yields the same limits |
| `Flags.ParsersDifferExactly` | engine.c:973-989 | on lists of plain decimals the starter parser accepts exactly those the engine accepts with every `--nice` in -20..19 and soft <= hard |
| `Flags.DefaultsAgree` | engine.c:966-971 | the built-in defaults of both programs are the same limits |
| `Flags.EngineTakesMore` | engine.c:973-989 | for instance the engine takes soft above hard |

## Left out

- Routing.FileHoldsOnlyItsOwn: a file is identified by its path string, so two ids such as "a" and
  "./a", which name one file by two paths, are not covered; the same holds of `Routing.LogsAreRouted`.
- `child_main`, clone flags, namespaces, chroot, mounts and setpriority: `clone`, `pipe` and
  `malloc` are steps that succeed or fail, and a child may end at any moment with any wait status.
- Socket set-up, the accept loop, the signal handler, device and class creation: plumbing.
- The wait loops of `waitpid` (EINTR, ECHILD, `usleep`) appear only as the enabling conditions of
  the reaper's steps; `kill` results and the SIGKILL sent after a failed allocation are not
  recorded.
- Requests are assumed to hold terminated strings (`Fits`), as the client writes them.
- The consumer's `open` and `write` are assumed to succeed in full.
- `pthread_create` for a producer is assumed to succeed. In the log path the producer's reads and
  pushes and its `free` and `close` are separate, unordered steps.
- `copy_from_user` failures and unknown ioctl commands; process and memory lookups are inputs of a
  pass, and the page size is fixed at 4096.
- Time formatting, `logs` output, response wording and usage text: easy or library-bound.
- The widths of C `int` fields appear as a hypothesis on the rows printed by `ps` (`RowFits`);
  `atoi` is modelled as glibc defines it, through `strtol`.
- Fairness and liveness over infinite runs: the absence of lost wakeups and of deadlock is stated
  for every reachable state, not as eventual progress.
- The workload programs, the Makefiles, boilerplate/monitor.c and the rest of
  boilerplate/engine.c: no hard property, or unfinished stubs.
