# WinKeeper: a verified model

WinKeeper supervises command-line tools: it starts them, watches them, restarts them within a rate
limit, shows their process trees and logs, and runs administrator tools through an elevated helper
with which it shares nothing but a directory. This project models the parts of it whose correctness
lies in interleavings, loops and histories, and proves what they promise.

| files | what they model |
|---|---|
| `ElevatedProtocol`, `ElevatedBase` | the command protocol between the proxy threads and the elevated helper, as a state machine whose steps are single file operations; helper and manager may crash between any two of them, and a claim may fail. What holds in every run |
| `ElevatedOrder`, `ElevatedHonesty`, `ElevatedSafety`, `ElevatedProgress`, `ElevatedRepeats` | the order of executions, what acknowledgements mean and that nothing is lost, what a dropped command tells the proxy, what a pass achieves, and what never runs again |
| `ElevatedPublishing`, `ElevatedRequests` | that every acknowledgement reaches every tool's state file, and what each request of the user, a shutdown included, puts into the directory |
| `ElevatedFailedClaims`, `ElevatedExamples` | exactly when a failed claim ends these promises, and runs that show it |
| `ElevatedPass`, `ElevatedProxy` | the loops behind those steps: the helper's pass over the command files and the proxy thread's turn, as programs that update their state in place |
| `ElevatedNames`, `ElevatedIds` | file names, crash recovery of claimed files, and when command ids really increase |
| `Worker`, `WorkerSafety`, `WorkerOutcomes`, `WorkerService`, `WorkerDeadlines`, `WorkerSections` | the worker thread of one tool: controls, exits, the sliding-window restart limiter, deferred starts. `WorkerLoop` is the program; `Iterate` is the function it is proved against; histories are carried along for the run theorems; what is shown while an iteration is under way |
| `MemorySampling`, `MemoryMeasured`, `MemoryExamples` | the lock-protected runtime record, shared by the worker, the user interface and any number of sampler threads, in every interleaving of lock sections |
| `Stopping` | the polling loops that stop a process tree, with nondeterministic answers from the operating system and a clock |
| `ProcessTree`, `ProcessTreeReach`, `ProcessTreeOrder`, `ProcessTreeInputs`, `ProcessTreeFallback` | building the process tree from an arbitrary, possibly cyclic snapshot: what it shows, in which order, when the order of the snapshot matters, and when the fallback is needed |
| `LogBuffer`, `LogLines`, `LogWindow`, `LogWindowText`, `LogFile`, `Utf8`, `CappedReader` | the bounded live buffer and its reload from disk, the window shown to the user, log rotation under file-system failures, cutting text at character boundaries, and capped line reading |
| `Watchdog`, `WatchdogOutcomes` | the Linux process watchdog: manager, pipe, watchdog and tree as a crash-tolerance protocol, and how each of its steps ends |

Conventions. A behaviour is a sequence of states with the steps that produce it (`IsRun`,
`IsInterleaving`), and a run theorem speaks about every state of every behaviour. Operating-system
answers, clock readings and send results are inputs of a step or nondeterministic choices of a method.
Times are milliseconds, the restart window included.

Assumptions of the protocol model, all explicit in it: at most one helper runs; a directory listing is
a snapshot of the names; an id handed out for a tool exceeds the ids issued for it before (`Fresh`;
`ElevatedIds` says exactly when the program's ids meet this); restoring a claimed file, removing a
claimed file and renaming a temporary file succeed. A failed claim is a step of its own
(`HelperSkip`), and a crash between removing and renaming a state file loses that file.

Where the program does less than one might expect, the model follows the program and says exactly when
the expectation holds:

- A failed claim lets a later command of the same tool overtake. What this costs depends on the two
  commands. If the overtaken one has not run, acknowledgements stop being honest: they are honest over
  every run without such a claim (`IsLosslessRun`), exactly such a claim makes one dishonest
  (`FailedClaimExactly`), and `FailedClaimLosesCommand` gives a run in which a start is acknowledged and
  dropped by the proxy without having run.
- If the overtaking command will run and is not a memory sample before a lifecycle command, the order is
  broken: executions are ordered over every run without such a claim (`IsOrderlyRun`), exactly such a claim
  leaves a command on disk behind what has run (`FailedClaimDisordersExactly`), and
  `FailedClaimReordersCommands` gives a run in which a start runs after the stop that the user asked for
  last.
- Even in an orderly run ids may decrease from a memory sample to a lifecycle command that a later helper
  runs again, and in no other way (`ExecutionOrder`, `SampleThenOlderStart`).
- The id counter is not enough to keep ids apart when the clock steps back (`IdsIncreaseExactly`,
  `SendIdIsFreshExactly`, `ClockSteppingBackBreaksIncrease`).
- A Start received while a child runs leaves a deadline behind that starts the tool once more after an
  exit, even with automatic restart off (`UnaskedStartExactly`, and `UnaskedStartHappens` for a run).
- Samplers recognise a process by its pid alone (`SizesAreCurrent`, `StaleSizeExactly`, and
  `StaleSizeHappens` for an interleaving).
- Reloading a log file shows what pushing its lines would have shown exactly when every line was read,
  or one line more than was read would not have fitted (`ReloadMatchesExactly`, and `ReloadMissesLine`
  for a file).
- The tree depends on the order of the snapshot exactly when the snapshot holds two different entries
  for a process that is shown (`OrderMattersExactly`).
- The fallback of the tree has nothing to add exactly when every known member is reachable from the root
  or from a member whose parent is outside the group (`FallbackAddsNothingExactly`).
- The watchdog and the manager read the same kernel answers differently in one case
  (`VerdictsAgreeExactly`).

## Model

| member | source | states |
|---|---|---|
| ElevatedOrder.ExecutionOrder | src/core/elevated.rs:100-148 | over every run, with crashes and resends anywhere, in which no failed claim lets a command that will run overtake out of order: two executions for one tool have nondecreasing ids unless the first is a memory sample and the second a lifecycle command; within one helper ids strictly increase |
| ElevatedHonesty.AcknowledgementIsHonest | src/core/elevated.rs:107-168 | over every run in which no failed claim lets an unexecuted command of a managed tool be overtaken: every issued id at or below the id published in a tool's state file has been executed, with the command it was issued for |
| ElevatedSafety.DroppedMeansDone | src/core/supervisor.rs:689-694 | when a proxy drops its pending command as acknowledged, the last lifecycle command executed for the tool is that command, and it points where the user wants |
| ElevatedHonesty.CommandsAreConserved | src/core/elevated.rs:112-148 | over the same runs: an issued command of a managed tool is executed or is still a command or claimed file; outside recovery and the handling of one command no file stays claimed |
| ElevatedHonesty.SkipKeepsPassExactly | src/core/elevated.rs:115-118 | after a failed claim the pass still holds every unexecuted command that precedes one of its own iff the claim let nothing overtake an unexecuted command of a managed tool |
| ElevatedHonesty.HeldCompletesPrefix | src/core/elevated.rs:134-147 | when a claimed command is executed, everything issued up to its id for its tool has been executed |
| ElevatedBase.StepKeepsBase | src/core/elevated.rs:85-168 | every step of helper and proxy, failed claims and crashes included, keeps files, pass, log, acknowledged ids and pending commands consistent; that acknowledgements are published at all is `PublicationReachesAll` |
| ElevatedOrder.StepKeepsOrder | src/core/elevated.rs:108-148 | every step but an order-breaking failed claim keeps the log ordered and everything on disk fit to follow it |
| ElevatedHonesty.StepKeeps | src/core/elevated.rs:108-168 | every step but a failed claim that loses a command keeps acknowledgements honest and commands on disk; that they are published is `PublicationReachesAll` |
| ElevatedPublishing.PublicationReachesAll | src/core/elevated.rs:149-168 | over every run: once a helper has set out to publish, whenever it is idle again without a crash every managed tool has a state file with the id the helper holds acknowledged for it, under the start time of this helper |
| ElevatedPublishing.ListedIsAcknowledged | src/core/elevated.rs:107-168 | over every run: a command file of a managed tool that a pass has listed is acknowledged in the state file of its tool when the pass has been published, unless its own claim failed |
| ElevatedPublishing.PublicationIsDueExactly | src/core/elevated.rs:149-154 | at the end of a pass the helper may go on without publishing iff the pass executed nothing |
| ElevatedPublishing.ExecutionsArePublished | src/core/elevated.rs:145-154 | a pass that executed anything ends in a publication |
| ElevatedPublishing.PublishedFileExactly | src/core/elevated.rs:155-165 | one step of a publication writes the state the tool is in, the id acknowledged for it and when the helper was started, and leaves every other state file |
| ElevatedOrder.RecoverKeepsOrder | src/core/elevated.rs:277-296 | restoring one claimed file, also one that was executed before the crash, keeps it fit to follow everything executed |
| ElevatedOrder.AgainFollowsAll | src/core/supervisor.rs:737-766 | resending keeps the order because only the latest lifecycle command is ever resent |
| ElevatedBase.RequestPreserves | src/core/supervisor.rs:624-663 | replacing the pending command by a new one, or by nothing if the send failed, keeps the pending command the latest one and in the desired direction |
| ElevatedRepeats.OneHelperNeverRepeats | src/core/elevated.rs:130-146 | over every run, failed claims included, the ids one helper executes for a tool strictly increase |
| ElevatedRepeats.AcknowledgedIsNotRepeated | src/core/elevated.rs:87-134 | over every run no helper executes a command at or below the id that stands acknowledged in the tool's state file, whatever crashed before |
| ElevatedExamples.FailedClaimLosesCommand | src/core/elevated.rs:116-118 | for every tool there is a run with a failed claim after which an unexecuted start is acknowledged and the proxy's next read drops it |
| ElevatedExamples.FailedClaimReordersCommands | src/core/elevated.rs:116-118 | for every tool there is a run with a failed claim in which stop 2 and then, by a second helper, start 1 are executed, while the user wants the tool stopped |
| ElevatedExamples.SampleThenOlderStart | src/core/supervisor.rs:737-766 | for every tool there is a run in which every claim succeeds and start 1, sample 2 and, by a second helper, start 1 again are executed |
| ElevatedFailedClaims.FailedClaimExactly | src/core/elevated.rs:115-147 | when a claim fails and nobody disturbs the rest of the pass, the acknowledgement the helper ends with for the tool is honest iff the claim let nothing overtake an unexecuted command of a managed tool |
| ElevatedFailedClaims.FailedClaimDisordersExactly | src/core/elevated.rs:115-147 | the command that could not be claimed is still on disk at the end of the pass, and may follow everything executed iff no unacknowledged command of its tool left in the pass overtook it out of order |
| ElevatedProgress.PassExecutesAll | src/core/elevated.rs:100-148 | whatever proxies do during a pass, when it reaches its end everything issued for managed tools before it began has been executed, unless its own claim failed in it |
| ElevatedProgress.QuietPassExecutesAll | src/core/elevated.rs:100-148 | so one pass that nobody disturbs executes everything issued for managed tools, and it leaves no command file |
| ElevatedPass.HelperProcess.RunPass | src/core/elevated.rs:108-148 | the loop over the listed files does to directory, acknowledgements and executions what the steps of a pass do to the world |
| ElevatedPass.HelperProcess.RunOne | src/core/elevated.rs:115-147 | one file: passed over when gone, dropped when unknown or acknowledged, otherwise executed and acknowledged; the claim does not outlive it |
| ElevatedProxy.OneCommandPerTurn | src/core/supervisor.rs:624-789 | however its sends fare, a proxy writes at most one command on finding a state file, and so at most two in a turn |
| ElevatedProxy.RequestIsSentOnceExactly | src/core/supervisor.rs:624-789 | a request that could be sent is all its turn writes, iff the state file found does not come from a new helper and the turn took less than two seconds |
| ElevatedProxy.TurnFollowsSteps | src/core/supervisor.rs:623-789 | whatever others do between a proxy's protocol steps, the steps of a turn compose to the turn's function |
| ElevatedProxy.KnownHelperIsAskedExactly | src/core/supervisor.rs:737-789 | facing a known helper, a proxy writes iff its command is unacknowledged for two seconds, or nothing is pending and the desired state was neither reached nor shown for eight |
| ElevatedProxy.SentIsDelivered | src/core/supervisor.rs:703-789 | the files written on a control message, on deciding and on reconciling are those by which the protocol steps change the directory |
| ElevatedRequests.RequestIssues | src/core/supervisor.rs:624-663 | over every run: Start, Stop and Restart, when they can be sent, put exactly a start, a stop or a restart into the directory as the latest command of the tool, leave exactly it pending, and set what is wanted |
| ElevatedRequests.OtherControlsIssue | src/core/supervisor.rs:664-679 | over every run: a shutdown issues a stop as the latest command and ends the proxy; a sample issues a memory sample and changes nothing wanted or pending; a turn without a message issues nothing |
| ElevatedRequests.FailedRequestIsRemembered | src/core/supervisor.rs:624-679 | when nothing can be sent, a request is remembered as a wish and as an attempt with nothing pending, and a shutdown still ends the proxy |
| ElevatedRequests.SpawnIssues | src/core/supervisor.rs:599-621 | a proxy begins by issuing a start iff its tool starts by itself and the send succeeds, with that start pending, and wants the tool running iff it starts by itself |
| ElevatedRequests.MissingStateEndsTurn | src/core/supervisor.rs:797-828 | a state file that is missing, stale or unreadable ends the turn: the proxy waits for its next message, and nothing else has changed |
| ElevatedProxy.UnacknowledgedTurn | src/core/supervisor.rs:686-766 | facing a known helper that has not acknowledged the pending command: it stays pending, and is written again under its own id iff two seconds have passed since it was written |
| ElevatedProxy.AcknowledgedTurn | src/core/supervisor.rs:689-789 | facing a known helper that has: nothing is pending, and a start or stop as wanted is issued iff the wanted state was neither reached nor is shown and eight seconds have passed since the last attempt |
| ElevatedProxy.UnknownHelperTurn | src/core/supervisor.rs:686-736 | facing another helper than before: a start or stop as wanted is issued and pending, and the wanted state counts as not reached |
| ElevatedProxy.FirstHelperTurn | src/core/supervisor.rs:718-736 | facing its first helper: a start or stop is issued iff nothing is pending any more and the wanted state is not shown |
| ElevatedProxy.FailedAskingTurn | src/core/supervisor.rs:703-736 | an attempt to ask another helper that cannot be sent leaves nothing pending, and eight seconds to wait |
| ElevatedProxy.ProxyThread.Receive | src/core/supervisor.rs:624-679 | the effect of each control message on the thread's variables and the file it writes, as the protocol step has it; which command that is, is `RequestIssues` and `OtherControlsIssue` |
| ElevatedProxy.ProxyThread.Look | src/core/supervisor.rs:681-702 | what is remembered of a fresh state file and when the pending command is dropped |
| ElevatedProxy.ProxyThread.Insist | src/core/supervisor.rs:703-766 | reissue to a changed or first-seen helper, or resend after two seconds: new variables and files written |
| ElevatedProxy.ProxyThread.Settle | src/core/supervisor.rs:767-789 | reconciliation after eight seconds: new variables and files written |
| ElevatedProxy.ProxyThread.Turn | src/core/supervisor.rs:623-830 | one turn of the loop, over its branches, leaves the thread's variables and writes the files as that function says; what it comes to for each kind of helper are the lemmas on turns above |
| ElevatedProxy.ProxyThread.constructor | src/core/supervisor.rs:599-621 | the state with which a proxy starts, and the start it sends |
| ElevatedNames.NameRoundTrip | src/core/elevated.rs:196-220 | the helper reads back exactly the key and id the proxy wrote into a file name |
| ElevatedNames.CommandFilesAreDistinct | src/core/elevated.rs:205-206 | commands with different keys or ids never share a file name |
| ElevatedNames.ClaimThenRecover | src/core/elevated.rs:115-116 | a claimed name is no command file, and recovery gives it its old name back |
| ElevatedNames.RecoveryConserves | src/core/elevated.rs:277-296 | after recovery over a listing in any order no claimed file is left, every claimed command is a command file, other files are untouched, and nothing is invented |
| ElevatedNames.ControlDirectory.RecoverClaimedCommands | src/core/elevated.rs:277-296 | the loop over the listing computes that recovery |
| ElevatedNames.ToolKey | src/core/elevated.rs:302-320 | a tool's key is not empty and holds no dot, so it can be split off a file name |
| ElevatedNames.KeySpelledOut | src/core/elevated.rs:302-320 | a key is the name with letters in lower case, digits kept and everything else an underscore, then an underscore and sixteen hexadecimal digits that read back as the 64-bit hash |
| ElevatedNames.KeysAgreeExactly | src/core/elevated.rs:302-320 | two tools share a key iff their hashes agree and their names differ only in case and in characters that become underscores; so different hashes make different keys |
| ElevatedNames.ParseDecimal | src/core/elevated.rs:257-259 | parsing gives back the id that was printed, for every 64-bit id |
| ElevatedNames.ParseIsLenient | src/core/elevated.rs:257-259 | an id is also read where it stands with leading zeros or a plus sign |
| ElevatedIds.IdsIncreaseExactly | src/core/elevated.rs:329-333 | the next id exceeds the last iff the clock advanced, or stood still without the counter modulo 1000 falling back |
| ElevatedIds.SendIdIsFreshExactly | src/core/elevated.rs:173-185 | the id chosen for a command is new, in every run, iff the clock's own id is, or the largest id issued is the one acknowledged in a state file that exists |
| ElevatedIds.ClockSteppingBackBreaksIncrease | src/core/elevated.rs:173-185 | whenever the clock stepped back, by any amount, while the command sent before is unacknowledged, the id chosen does not exceed the ids issued |
| Worker.WorkerLoop.Turn | src/core/supervisor.rs:453-583 | one turn of the loop leaves locals, runtime record and history as the function `Iterate` says, through the lock sections it lists |
| Worker.WorkerLoop.Receive | src/core/supervisor.rs:454-486 | effect of each control message |
| Worker.WorkerLoop.PollChild | src/core/supervisor.rs:488-534 | effect of a child's exit, as the function `CheckExit` says; when that is a restart and when a crash is `ExitIsAnsweredExactly` |
| Worker.WorkerLoop.DropOldRestarts | src/core/supervisor.rs:507-512 | the loop drops the leading times older than the window, as the function `Prune` says; that no time within it is dropped and no older one kept shows in `ExitIsAnsweredExactly` |
| Worker.WorkerLoop.StartIfDue | src/core/supervisor.rs:536-582 | effect of a due start, in success and in each way of failing |
| Worker.WorkerLoop.HandleFailedStart | src/core/supervisor.rs:557-580 | a failed start, as the function `FailStart` says; when it is scheduled again and when the tool is crashed is `StartIsAnsweredExactly` |
| Worker.WorkerLoop.StopProcess | src/core/supervisor.rs:1010-1082 | effect of stopping on worker and record |
| WorkerOutcomes.ExitIsAnsweredExactly | src/core/supervisor.rs:504-526 | over every run, when a child that is to be restarted is found gone: if fewer automatic restarts than allowed lie within the window before the exit, a restart is recorded and scheduled after the delay, and attempted in the same iteration only if the delay is over; otherwise the tool is crashed and unwanted |
| WorkerOutcomes.ExitWithoutRestart | src/core/supervisor.rs:527-529 | a child found gone without automatic restart leaves a stopped tool |
| WorkerOutcomes.StartIsAnsweredExactly | src/core/supervisor.rs:536-580 | over every run, for a start attempt of a tool that had no child or whose child a Restart has just stopped: a started child is shown with its pid and start time; a failed start is scheduled again after the delay iff automatic restart is on and fewer restarts than allowed lie within the window before the failure, none after a Start; otherwise the tool is crashed and unwanted |
| WorkerOutcomes.LimiterResetsExactly | src/core/supervisor.rs:454-486 | an iteration forgets the automatic restarts and the count that is shown iff it received a Start for a tool without a child; the count goes up by one for each automatic restart and for a Restart of a live child |
| WorkerOutcomes.ReleaseIsCountedExactly | src/core/supervisor.rs:1057-1075 | over every run: a child let go of counts as seen to exit iff stopping it saw the exit or it was found gone, and as left to a reaper iff stopping it did not |
| WorkerSections.StopIsShown | src/core/supervisor.rs:1024-1080 | over every run: while a held child is stopped the tool is shown as stopping, with the pid and start time of the child, and next as stopped, without a process |
| WorkerSections.StartIsShown | src/core/supervisor.rs:536-582 | over every run: until the outcome of a start is known the tool is shown as starting, without a process |
| WorkerSafety.IterationsSettle | src/core/supervisor.rs:453-583 | after every iteration of every run: child iff pid iff start time iff Running; a held child is wanted; Crashed is not; Restarting has no child, is wanted and has a deadline; Starting and Stopping are gone |
| WorkerSafety.RestartRateIsLimited | src/core/supervisor.rs:504-526 | between limiter resets, any closed interval of the window's length holds at most the allowed number of automatic restarts, over both push sites; the deque is sorted and within the maximum |
| WorkerSafety.LimitEffect | src/core/supervisor.rs:505-522 | pruning and pushing keep the deque the recent end of all automatic restarts |
| WorkerSafety.SpacedCount | src/core/supervisor.rs:505-522 | times of which any `n + 1` successive ones span more than the window put at most `n` into an interval of its length |
| WorkerSafety.StartsAreCovered | src/core/supervisor.rs:536-549 | start attempts number at most auto-start plus Start and Restart controls plus scheduled restarts; `restart_count` is automatic restarts plus Restarts of a live child since the reset |
| WorkerSafety.NoChildIsLost | src/core/supervisor.rs:855-903 | each spawned child is held, seen to exit, or given to a reaper, exactly one of these; none is held after shutdown |
| WorkerSafety.CrashedStaysDown | src/core/supervisor.rs:536-539 | from Crashed there is no start attempt until the next Start or Restart |
| WorkerDeadlines.UnaskedStartExactly | src/core/supervisor.rs:455-463 | with automatic restart off, an iteration without a request starts the tool iff the child has just exited and a Start was received while that same child was held |
| WorkerDeadlines.DeadlineMeansStart | src/core/supervisor.rs:455-542 | while a child is held a deadline is pending iff a Start was received while that child was held |
| WorkerDeadlines.UnaskedStartHappens | src/core/supervisor.rs:455-542 | a run of three iterations in which a tick starts a tool that restarts by no setting |
| WorkerService.RequestsAreServed | src/core/supervisor.rs:454-549 | in every run a Restart, or a Start of a tool that is down, leads to a start attempt in the same iteration; a Start leaves a running child alone; after a Stop the tool is down, unwanted and without a deadline |
| WorkerService.RestartWaitsExactly | src/core/supervisor.rs:520-539 | without a request a restarting tool is started in an iteration iff the delay has passed since the last automatic restart was scheduled |
| MemorySampling.MemoryIsHonest | src/core/supervisor.rs:336-384 | in every interleaving, at every lock release: Running implies a pid, no pid implies Idle, a size belongs to a child that had the pid shown, Pending implies a sampler measuring that pid; that the size is the one measured is `ShownSizeWasMeasured` |
| MemorySampling.RecordIsSettled | src/core/supervisor.rs:1132-1162 | between iterations the shared record is the worker's, whatever the samplers did in between |
| MemorySampling.IterationTells | src/core/supervisor.rs:453-583 | the lock sections of an iteration, run one by one, give the record the iteration ends with, and none shows Running without a pid |
| MemorySampling.SizesAreCurrent | src/core/supervisor.rs:1138-1161 | if no pid was reused, a shown size was measured on the very process shown |
| MemorySampling.StaleSizeExactly | src/core/supervisor.rs:1146-1161 | a sampler of a process that is gone changes the record iff the process now shown has its pid |
| MemoryMeasured.ShownSizeWasMeasured | src/core/supervisor.rs:1138-1161 | in every interleaving: a size that is shown was the result of an earlier measurement by a sampler of the pid shown, and has been shown ever since |
| MemoryMeasured.FinishShowsResult | src/core/supervisor.rs:1151-1160 | a measurement for the pid shown shows its size, or Unavailable when it failed; for another pid it shows nothing and ends its sampler |
| MemoryMeasured.WakeAnnounces | src/core/supervisor.rs:1144-1150 | a refresh that wakes up for the pid shown announces its measurement; for another pid it ends |
| MemoryMeasured.RequestAnnounces | src/core/supervisor.rs:358-383 | in every interleaving, a request announces and starts one measurement of the process of a running tool, and shows Idle for any other |
| MemoryMeasured.StartedChildIsMeasured | src/core/supervisor.rs:541-555 | a child shown as running gets a refresh thread for the number of measurements it is to have |
| MemoryExamples.StaleSizeHappens | src/core/supervisor.rs:1138-1161 | an interleaving with a reused pid after which a size measured for the process that is gone is shown for its successor |
| Stopping.System.StopProcess | src/core/supervisor.rs:1010-1082 | for every sequence of answers: ends within the stop timeout if the tree agreed to stop, one 50 ms poll and two reaping waits of 2 s and one 20 ms poll each, plus sleep slack; the tree is forced iff the last answer was not that it is empty, and only after its full timeout if it agreed to stop and was not seen empty; the child is killed only when forcing failed or when it had not exited within 2 s or could not be queried; it was seen to exit or, killed and waited for, handed to a reaper |
| Stopping.System.StopRemainingTree | src/core/supervisor.rs:905-945 | forces the tree iff the last answer was not that it is empty, after asking it and, if it agreed, its full timeout; ends the moment it is seen empty |
| Stopping.System.WaitForChildExit | src/core/supervisor.rs:1084-1095 | answers whether an exit was seen, at once for a known exit, and gives up only when the whole timeout has passed or a query failed |
| Stopping.System.AwaitEmptyTree | src/core/supervisor.rs:1035-1044 | ends the moment it is told that the tree is empty and claims emptiness only then; otherwise it waits for the whole timeout and at most one poll more |
| ProcessTree.BuildProcessTree | src/platform/mod.rs:72-148 | the program computes `Tree`, whatever the order in which hash sets are iterated |
| ProcessTree.TreeBuilder.Append | src/platform/mod.rs:90-116 | the recursive walk terminates on every snapshot and computes the depth-first function |
| ProcessTree.FillTables | src/platform/mod.rs:77-85 | the loop builds the last entry of each pid and the children in snapshot order |
| ProcessTree.SortChildren | src/platform/mod.rs:86-88 | every child list is sorted, in any iteration order of the map |
| ProcessTree.CollectSorted | src/platform/mod.rs:122-133 | collecting a hash set in any order and sorting gives one result |
| ProcessTree.SortedIsUnique | src/platform/mod.rs:86-88 | two ascending lists with the same elements are equal |
| ProcessTreeReach.TreeIsReachableSet | src/platform/mod.rs:77-147 | for every snapshot the output has distinct pids, carries pid, parent, name and memory of a snapshot entry, and lists exactly the processes reachable by child edges from root and members in the snapshot |
| ProcessTreeReach.MembersAreShown | src/platform/mod.rs:138-146 | every member present in the snapshot is shown, however malformed the snapshot |
| ProcessTreeInputs.TreeIgnoresSnapshotOrder | src/platform/mod.rs:86-88 | with unique pids the tree depends on the set of entries only |
| ProcessTreeInputs.OrderMattersExactly | src/platform/mod.rs:77-88 | for every snapshot, all its orders give one tree iff no process reachable from the group has two different entries |
| ProcessTreeInputs.LastEntryIsShown | src/platform/mod.rs:79-85 | of several entries for a process that is shown, the tree shows parent, name and memory of the one read last |
| ProcessTreeFallback.FallbackAddsNothingExactly | src/platform/mod.rs:122-146 | the fallback adds nothing iff every member in the snapshot is reachable from the root or from a member whose parent is outside the group |
| ProcessTreeFallback.EarlierStagesShowAnchored | src/platform/mod.rs:119-136 | the walks from root and detached roots show exactly what is reachable from these anchors |
| ProcessTreeFallback.AcyclicNeedsNoFallback | src/platform/mod.rs:122-146 | with acyclic parent links and root and members present, the fallback adds nothing |
| ProcessTreeFallback.ClosedCycleNeedsFallback | src/platform/mod.rs:138-146 | members whose parents are all among them, without the root, are shown by the fallback and not before |
| ProcessTreeOrder.TreeIsPreorder | src/platform/mod.rs:90-136 | with unique pids the output is the root's preorder, the detached roots' and the fallback's, each with ascending top entries |
| ProcessTreeOrder.ParentPrecedesChild | src/platform/mod.rs:109-115 | an entry at depth two or more has its real parent as the nearest preceding entry one level up |
| ProcessTreeOrder.DeepSiblingsAscend | src/platform/mod.rs:86-115 | siblings at depth two or more appear in ascending pid order |
| ProcessTreeOrder.DepthRisesByOne | src/platform/mod.rs:109-136 | depth never rises by more than one from an entry to the next |
| LogBuffer.LogInner.PushBounded | src/core/logging.rs:291-300 | the live buffer is the longest suffix of the whole history within both capacities, and its byte count is its true size |
| LogBuffer.LogInner.Trim | src/core/logging.rs:294-299 | the eviction loop leaves the longest suffix of the queue within both capacities, and the byte count true |
| LogBuffer.LogInner.Reload | src/core/logging.rs:202-232 | reverse, take, reverse and pop leave the longest fitting suffix of the lines read |
| LogBuffer.LongestFitIsLongest | src/core/logging.rs:291-300 | no longer suffix fits both capacities |
| LogBuffer.LongestFitIsFittingSuffix | src/core/logging.rs:291-300 | what is kept is a suffix and fits both capacities |
| LogBuffer.TrimThenPush | src/core/logging.rs:291-300 | a line evicted earlier never belongs to the longest fitting suffix later, so evicting after each push loses nothing |
| LogBuffer.PushAllKeepsLongest | src/core/logging.rs:291-300 | pushing any number of lines one by one keeps the longest fitting suffix of everything ever pushed |
| LogBuffer.TailLinesAreNewest | src/core/logging.rs:202-222 | whatever the file's size, the lines read are its newest whole lines |
| LogLines.LinesJoinBack | src/core/logging.rs:211-222 | every text is the lines the program reads, joined by what ended them: a newline, a carriage return and a newline, or the end of the text after a last line that is not empty |
| LogLines.SplitIsUnique | src/core/logging.rs:211-222 | and there is no other way to split it so |
| LogLines.TailExactly | src/core/logging.rs:203-217 | the text of a reload is the whole file up to 2097152 bytes; of a larger file it starts after the first newline of the last 2097152 bytes, and is empty when there is none |
| LogBuffer.ReloadMatchesPushing | src/core/logging.rs:202-232 | for files up to two mebibytes the reload gives what pushing the file's lines one by one gives |
| LogBuffer.ReloadMatchesExactly | src/core/logging.rs:202-232 | for any file it does so iff the reload read every line, or one line more than it read would not have fitted |
| LogBuffer.ReloadMissesLine | src/core/logging.rs:203-215 | a file of two lines of the greatest allowed length, of which the reload sees only the second although the greatest buffer holds both |
| LogWindow.FormatSnapshot | src/core/logging.rs:305-338 | the program renders the header and the clipped lines of the window |
| LogWindow.FindStart | src/core/logging.rs:308-320 | the backward loop finds the start of the window |
| LogWindow.WindowStartExactly | src/core/logging.rs:308-320 | a suffix lies within the window iff it fits 400 lines and 48 KiB of lines clipped at 2 KiB |
| LogWindow.NewestIsShown | src/core/logging.rs:312-318 | the newest line is always shown |
| LogWindowText.WindowSpelledOut | src/core/logging.rs:305-338 | for every log: the output is the longest end of it of at most 400 lines that counts no more than 49152 bytes at 2048 a line; each line whole, or its longest well-formed beginning within 2048 bytes and the marker, on a line of its own; after a header that spells out in decimal how many lines are left out, iff any are |
| LogWindow.RenderSize | src/core/logging.rs:305-338 | the output is at most 48 KiB, 399 newlines, 24 markers of 15 bytes and one header |
| LogWindow.HeaderSize | src/core/logging.rs:322-326 | for any count of omitted lines the header takes 63 bytes and one for each digit of the count |
| LogWindow.RenderIsValid | src/core/logging.rs:305-338 | clipping leaves the output well-formed UTF-8 |
| Utf8.TruncateUtf8 | src/core/logging.rs:340-349 | the loop finds the cut and says whether anything was lost |
| Utf8.ClipIsLongestPrefix | src/core/logging.rs:340-349 | the cut text is the longest well-formed prefix within the limit |
| Utf8.ClipLosesLittle | src/core/logging.rs:340-349 | at most three bytes within the limit are given up |
| Utf8.BoundaryExactly | src/core/logging.rs:344-346 | a prefix of well-formed text is well-formed iff it ends at a character boundary |
| LogFile.RotatingFile.WriteFormatted | src/core/logging.rs:246-261 | under any failures backup and current file together stay a suffix of everything written; a line that fits behind the current file is appended or nothing changes, and one that does not starts a new file with the old one as backup; after a successful write the current file is within its limit, or holds one line longer than it |
| LogFile.RotatingFile.Rotate | src/core/logging.rs:263-288 | a rotation moves the current file to the backup and starts an empty one, or fails without breaking the suffix |
| LogFile.FormattedFits | src/core/config.rs:127-133 | with the configured room a formatted line, stamp, channel, marker and newline included, fits the file limit |
| LogFile.FormatSpelledOut | src/core/logging.rs:157-162 | a formatted line is the stamp, the channel in brackets and the line: whole, or cut at a character boundary at most three bytes below the limit and marked |
| LogFile.ToolLog.Write | src/core/logging.rs:152-178 | every line of a message reaches the live buffer, also when the file fails; the file gains some of these lines in their order, nothing else, and is within its limit once one was written |
| LogFile.ToolLog.FormatLine | src/core/logging.rs:157-170 | one formatted line, cut at a character boundary |
| CappedReader.Reader.ReadCappedLine | src/core/supervisor.rs:975-1008 | for every chunking a read takes exactly the next line, returns its first bytes and whether the line is longer than the cap; `None` only at the end of input; it fails iff the system reported an error |
| CappedReader.CopyOutput | src/core/supervisor.rs:947-973 | for every chunking, each line of the output up to the end or an error of the system is logged once and in order: its first bytes, decoded, without line ends, marked iff it was longer than the cap; it fails iff there was such an error |
| CappedReader.ShortLineIsLoggedWhole | src/core/supervisor.rs:957-963 | a line within the cap that decodes to itself is logged whole but for its line ends, and as one line |
| CappedReader.LongLineIsMarked | src/core/supervisor.rs:957-963 | a line beyond the cap is logged as its decoded beginning, without line ends, and the text that marks it as truncated |
| CappedReader.TrimEndExactly | src/core/supervisor.rs:958-959 | trimming cuts line ends only, and all of them |
| CappedReader.RawLinesPartition | src/core/supervisor.rs:992-1004 | the lines read partition the stream |
| CappedReader.ScanBuffer | src/core/supervisor.rs:992-1002 | how far a chunk is consumed, what is kept, and whether the line ends in it |
| Watchdog.WatchdogNeverAbandonsTree | src/platform/linux.rs:562-599 | over every run of crashes, drops and pipe reads, an armed watchdog ends without stopping only after the manager saw the tree empty; otherwise it saw it empty or issued a kill; that the ordinary end disarms it is `PipeExactly` and `DisarmedDogNeverStops` |
| Watchdog.LossReachesWatchdog | src/platform/linux.rs:429-452 | once the manager is gone without having seen the tree empty, the watchdog finds the end of its pipe and whatever ends its read makes it stop the tree |
| Watchdog.GuardHoldsWatchdog | src/platform/linux.rs:562-572 | while the guard is held only a read error wakes the watchdog |
| WatchdogOutcomes.PipeExactly | src/platform/linux.rs:436-442 | over every run: a waiting watchdog can read the disarming byte iff the manager has written it, the end of the pipe iff the manager has let go of it without that byte, and no other byte; reading the byte ends it disarmed, with nothing else changed |
| WatchdogOutcomes.DisarmedDogNeverStops | src/platform/linux.rs:436-451 | over every run: a watchdog that was waiting when the byte was written never goes on to stop the tree unless one of its reads fails |
| WatchdogOutcomes.OrdinaryEnd | src/platform/linux.rs:429-452 | from every world of a run in which the guard is held over a waiting watchdog and an empty tree, dropping the guard leads to a watchdog ended disarmed and the manager gone |
| WatchdogOutcomes.DropExactly | src/platform/linux.rs:429-438 | over every run: dropping a guard without a watchdog does nothing, one whose tree is found empty goes on to disarm, and any other leaves its watchdog the end of the pipe, not disarmed |
| WatchdogOutcomes.AwaitExactly | src/platform/linux.rs:443-450 | over every run: after disarming, a watchdog that still runs is killed if it did not end in time, and is otherwise left alone |
| WatchdogOutcomes.HealthCheckExactly | src/platform/linux.rs:366-391 | over every run: a running watchdog is left alone; one that ended or is missing is replaced by a waiting one unless the tree is found empty, or by none if the new one does not report ready |
| WatchdogOutcomes.AttachExactly | src/platform/linux.rs:339-364 | attaching leaves a waiting watchdog, or none if it does not report ready |
| WatchdogOutcomes.OtherReadsStopTree | src/platform/linux.rs:570-582 | over every run: an interrupted read is repeated, and every read that returns anything but the disarming byte starts the stop |
| WatchdogOutcomes.PollExactly | src/platform/linux.rs:591-599 | over every run: a stopping watchdog ends when it finds the tree empty, issues its kill when its time is up, and goes on otherwise |
| Watchdog.VerdictsAgreeExactly | src/platform/linux.rs:601-610 | watchdog and manager agree whether the tree runs, except when probing the group fails in an undocumented way and no cgroup contradicts |
| Watchdog.SignalManagedTree | src/platform/linux.rs:612-636 | signalling fails iff nothing was delivered, something was refused and the tree is still there |
| Watchdog.StopManagedTree | src/platform/linux.rs:585-599 | returns in bounded time: having asked the tree to stop, the moment it is seen empty, or having waited for the whole timeout; it kills iff the last answer was not that the tree is empty |

## Left out

- The user interface, the tray, localisation and number formatting: presentation.
- The Windows platform, systemd and `/proc` queries, signals, autostart, path setup and permissions: foreign calls, whose answers are nondeterministic here.
- Configuration loading and its range checks, apart from the room for a log line, which is a precondition.
- Single-instance locking: at most one helper runs is an assumption.
- Distinctness of hash-based tool keys and log file names: the hash is a parameter, and tools are assumed to have distinct keys.
- The TOML encoding of commands and states, and the helper's `invalid` and `id-mismatch` rejections: command files hold what a proxy wrote; only the `unknown-tool` rejection is modelled, and rejected files vanish from the model.
- Failing removals and renames in the control directory other than the claim: a claimed file that could not be removed after execution may be restored by a later recovery, which the order theorem does not cover.
- What the proxy copies into the runtime record of an administrator tool, and its unavailable display after eight seconds.
- Fairness: nothing says that a helper is ever started, so the protocol results are about safety and about what a pass has done when it ends.
- Thread creation failures, panics and lock poisoning.
- Arithmetic overflow of deadlines: times and the shown restart count are unbounded, while ids and byte counts saturate where the program saturates.
- Texts written to the log, including health-check messages.
- The length cache of `snapshot_external` and flush errors after a successful append.
- Lossy decoding of invalid bytes: a parameter of the reader thread, and left out of the reload, which is of well-formed text.
- Torn writes: a failed append is taken to leave the file as it was.
- `migrate_legacy_logs` and log file naming.
- The size of a log file is always known when it is opened: the program counts an unknown size as 0, after which the file may exceed its limit.
- ElevatedOrder.ExecutionOrder: stated over runs in which no failed claim breaks the order; `FailedClaimReordersCommands` and `FailedClaimDisordersExactly` show why.
- ElevatedHonesty.AcknowledgementIsHonest: stated over runs in which no failed claim lets an unexecuted command be overtaken; `FailedClaimLosesCommand` and `FailedClaimExactly` show why.
- ElevatedSafety.DroppedMeansDone: stated over runs that meet both conditions.
- ElevatedHonesty.CommandsAreConserved: under the condition of `AcknowledgementIsHonest`, and for tools the helper manages, since it rejects the others.
- Stopping.System.StopProcess: calls to the operating system take no time, only sleeping does; the bound grows by what the calls take.
- Watchdog.WatchdogNeverAbandonsTree: spawning a watchdog and its readiness handshake are one step, and nobody but the manager kills a watchdog.
