# Models of the merge scheduler, its protocols and the byte tools

Dafny models of the parts of this repository whose correctness is hardest to see from the code: the
parallel merge scheduler and the task queues under it, the order in which packages are unmerged, two
protocols between processes, the tools that quote or rewrite bytes, and the package database whose
lists are shared. Each imperative part is a class or a method with loops, proved against functions of
the old state; the properties are lemmas about those functions, over every input or every run.

`dafny verify dfyconfig.toml` checks the project.

| part | files |
|---|---|
| common ground | `Wrappers`, `Sequences`, `Sorting`, `Reachability`, `Digraph`, `Packages`, `Bytes` |
| merge scheduler | `DependencySearch`, `SchedulerSetup`, `SchedulerModel` (what each method does), `SchedulerBoard`, `SchedulerLive`, `SchedulerTokens`, `SchedulerInvariant`, `SchedulerChoice`, `SchedulerSteps`, `SchedulerRuns` (the invariant and its preservation), `SchedulerTheorems`, `SchedulerProgress` and `SchedulerInterrupts` (how runs end), `Scheduler` (the class) |
| task queues and listeners | `TaskQueue`, `TaskQueueRuns`, `AsyncTask` |
| unmerge order | `UnmergeOrder` |
| protocols | `EbuildIpc`, `BuildDirLock` |
| byte tools | `Chpath`, `ChpathBack`, `ChpathWrong`, `ChpathFails`, `ChpathPrefixes` (rewriting a prefix and back), `Utf8`, `Shquote`, `XattrHelper` |
| package database | `VirtualDb`, `PackageVirtualDbapi` |

The main results:

- **Scheduler.** One invariant, kept by every event of a run, says where each task and each package is.
  From it: a build only starts when everything it needs merged is completed, also when packages went
  back to the head of the queue for want of a job token; packages with one cpv are never in progress
  together; merge-wait merges of system packages are alone; the early return of the search is justified;
  jobs and tokens are accounted for exactly. A run in which nothing happens any more has ended or waits
  for a job token, an undisturbed one has merged the whole list, and which interrupted ones end is stated exactly.
- **Unmerge order.** Every package is listed once, the "no root nodes" assertion cannot fail, and a
  dependency goes before its dependent only when what is left has a cycle at least as hard as that
  dependency. Without such cycles the order is topological.
- **Protocols.** For any number of processes: the request fifo is empty whenever the daemon closes it, no
  client meets the gap, each request has one reply at its sender; build directory locks exclude each
  other, never wait in a circle, and keep the category directory.
- **Byte tools.** The shell reads back exactly what shquote printed; u8decode decodes exactly the encodings
  of RFC 3629; unquoting inverts quoting and a dump is replayed exactly; a prefix rewritten in a binary
  file is rewritten back if and only if the new prefix is found where it was written, and for which prefixes
  that holds is decided from the prefixes, but for one relation between them.
- **Package database.** The two indexes agree as long as no injection empties a list, and cached answers are
  right in every run that updates no metadata behind another database's answers; which updates those are
  is stated exactly. Databases as objects that share lists behave as separate values in every run.

Where the code does not do what is expected of it, the code is modelled as it is:

- The comment in `lib/_emerge/AsynchronousTask.py:54-57` says that a listener is never called more than
  once. It is called again when it is registered again after its call (`RegisteredAgainCalledAgain`,
  `CalledTwiceExactly`).
- The comment before `u8decode` says that the code point is not changed on invalid input. It may be
  (`DecodeChangesOnFailure`); it is kept exactly when the lead byte or the guard on the second byte
  already refuses the input (`KeptOnFailure`).
- A cpv_inject that replaces all packages of its list appends to a list that has left the index, so the new
  package is not listed under its cp (`UpgradeDetaches`); `InjectOutcome` says exactly when.
- An aux_update reaches the Package objects of copies, but clears only its own cache (`SharedUpdateStales`);
  `UpdateSafeExactly` says when that is safe.
- When the category directory cannot be made, async_lock never releases its lock (`LeakedExactly`,
  `LeakedForever`).
- An interrupt does not always end a run by itself, since the termination check does not call _schedule. It
  does if and only if, when it comes, a task is live, the merge wakeup is pending or the main exit is done;
  otherwise the run waits for a job token or a timer (`InterruptEndsExactly`, `InterruptedWhileStarved`).
- shquote prints nothing for an empty argument, so the arguments are read back if and only if none is empty.
- An extended attribute whose name begins with "# file: " is restored as a file line (`DumpRestores`).
- A file whose prefix was rewritten can be restored although the new prefix is found elsewhere: for a shorter
  new prefix of slashes (`SlashesDoNotTell`), and for one that begins the old one, apart from slashes, when the
  slashes at the ends of the old one are many enough (`CutDoesNotTell`, `SharedDoesNotTell`). So "opt/" to
  "opt" fails, and "/opt/" to "opt/". For all other prefixes the condition is exact (`TellsExactly`), unless the
  slashes would allow it but the new prefix does not go on like the old one. Paths that begin with one slash
  and end with at most one are never concerned (`PathsTell`).
- A text file that ends with a match is not truncated when the new prefix is shorter (`TextReplacesAll`).

## Model

| member | source | states |
|---|---|---|
| SchedulerTheorems.RunKeepsInv | lib/_emerge/Scheduler.py:1629-1677 | every state reached by any sequence of callbacks, exits, setups, token wake-ups, timers and interrupts satisfies the global invariant |
| SchedulerTheorems.DependenciesFirst | lib/_emerge/Scheduler.py:1760-1854 | with a merge list that puts each package behind what it needs merged, a package in progress has all of that, at any depth, in the completed packages |
| SchedulerTheorems.LaunchNeedsCompleted | lib/_emerge/Scheduler.py:2194-2253 | the same at the start itself: what the round launches is the chosen package, and all it needs merged is completed before the round |
| SchedulerTheorems.SameCpvSerialized | lib/_emerge/Scheduler.py:605-627 | two listed packages with one cpv are never in progress together, and the earlier one is completed before any task of the later one exists; no acyclicity is assumed |
| SchedulerTheorems.OnePlace | lib/_emerge/Scheduler.py:1506-1627 | each listed package is queued, in progress or completed (unless something failed or was terminated), in no two of these at once, with at most one live task |
| SchedulerTheorems.MergeWaitIsolated | lib/_emerge/Scheduler.py:1981-2016 | scheduled merge-wait merges imply that no job runs, and one of a system package is all that the merge queue holds, whatever its bound |
| SchedulerTheorems.JobsAccounted | lib/_emerge/Scheduler.py:2219-2253 | _jobs equals the builds whose exit is not handled, never exceeds the maximum, and exactly those builds have a token entry until tasks are terminated |
| SchedulerTheorems.TokensConserved | lib/_emerge/Scheduler.py:2136-2188 | while the jobserver is up, for each token value the number in the fifo, with other clients and with tasks stays the same; the implicit slot is free or held by one task; the assertion on release cannot fail |
| SchedulerTheorems.CallbacksFindTheirTask | lib/_emerge/Scheduler.py:1493-1504 | the next exit callback always finds its task in the queue or list it removes it from |
| SchedulerTheorems.EarlyReturnJustified | lib/_emerge/Scheduler.py:1767-1810 | while the early-return flag is set and scheduling goes on, a fresh search would choose nothing either |
| SchedulerTheorems.NeverStranded | lib/_emerge/Scheduler.py:1971-2057 | after _schedule_tasks, called in any state that satisfies the invariant: if no task is running then the main exit is done or the head package waits for a job token with a reader registered |
| SchedulerTheorems.RoundsShrinkBacklog | lib/_emerge/Scheduler.py:1972-2045 | each repetition of the loop shrinks the package queue and the merge-wait queue together |
| SchedulerProgress.ScheduleProgresses | lib/_emerge/Scheduler.py:1971-2084 | after _schedule_tasks, called in any such state, until the main exit is done: a waiting merge has a job or the merge wakeup to wait for, and a task is live or the queue waits for a token |
| SchedulerProgress.QuietRunEnds | lib/_emerge/Scheduler.py:2047-2084 | in every run: with an empty event loop, no started task and no merge wakeup pending, the main exit is done or a reader is registered on a live jobserver with nothing else left; with an implicit slot the main exit is done |
| SchedulerProgress.MainExitCompletes | lib/_emerge/Scheduler.py:2047-2052 | in every run: a main exit without failure or termination means that the queue is empty and every listed package is completed |
| SchedulerProgress.UndisturbedRunMergesAll | lib/_emerge/Scheduler.py:1629-1677 | a run in which nothing happens any more, without failure, termination or token to wait for, has completed every listed package |
| SchedulerInterrupts.InterruptEndsExactly | lib/_emerge/PollScheduler.py:67-104 | for every run with an interrupt, once nothing happens any more: the main exit is done if and only if a task was live, the merge wakeup pending or the main exit done when the interrupt came, or a token or a timer came later |
| SchedulerInterrupts.StepWillEnd | lib/_emerge/PollScheduler.py:81-104 | the law of one step after termination was requested: the run will end by itself if and only if it would before, or the step is a token or a timer |
| SchedulerProgress.InterruptedWhileStarved | lib/_emerge/PollScheduler.py:81-104 | the case of an interrupt in a quiet state that waits for a token: the main exit is not done, no other event than a token or a timer changes anything, and either of them ends the run |
| SchedulerProgress.StarvesAtStart | lib/_emerge/Scheduler.py:2219-2226 | such states are reached: a run starts in one whenever the jobserver has no token for the first package |
| SchedulerChoice.ChooseGood | lib/_emerge/Scheduler.py:1760-1810 | a chosen package leaves the queue and all it must wait for is completed; the order of the rest and the graph's use stay right |
| SchedulerSetup.PreventBuilddirCollisions | lib/_emerge/Scheduler.py:605-627 | the graph gets exactly the arcs from each later to each earlier package with its cpv, with the buildtime priority, and is otherwise unchanged |
| SchedulerSetup.SetupKeepsOrder | lib/_emerge/Scheduler.py:582-627 | pruning and the collision arcs together keep a well-ordered merge list well ordered and its packages in the graph |
| Packages.PruneCorrect | lib/_emerge/Scheduler.py:582-603 | pruning leaves no prunable root, keeps arcs and priorities between kept nodes, and what it drops is prunable |
| Packages.PrunedAncestorsPrunable | lib/_emerge/Scheduler.py:582-603 | all ancestors of a pruned node are prunable |
| Packages.ShrunkKeepsNeeds | lib/_emerge/Scheduler.py:582-603 | a kept package needs the same packages before and after pruning |
| DependencySearch.DependentOnScheduledMerges | lib/_emerge/Scheduler.py:1812-1854 | true exactly when a package reachable through non-uninstall nodes must be waited for |
| DependencySearch.FindDeepSystemRuntimeDeps | lib/_emerge/_find_deep_system_runtime_deps.py:8-37 | exactly the nodes reachable over runtime arcs from a system package |
| Schedulers.Scheduler.Terminate | lib/_emerge/PollScheduler.py:67-79 | sets the flag and schedules one termination check, once |
| Schedulers.Scheduler.AcquireJobToken | lib/_emerge/Scheduler.py:2136-2163 | the implicit slot first, else one byte of the fifo; would block when it is empty; an error closes the jobserver and terminates |
| Schedulers.Scheduler.ReleaseJobToken | lib/_emerge/Scheduler.py:2165-2188 | the task's token goes back to the slot or the fifo, once |
| Schedulers.Scheduler.TaskComplete | lib/_emerge/Scheduler.py:1622-1625 | the package is completed, no longer unsatisfied, and the search may run again |
| Schedulers.Scheduler.DoMergeExit | lib/_emerge/Scheduler.py:1506-1556 | a failed merge is recorded as failed; a good one completes its package and the uninstall it replaces |
| Schedulers.Scheduler.PruneDigraph | lib/_emerge/Scheduler.py:582-603 | the loop ends with the pruned graph that Packages.PruneCorrect is about |
| Schedulers.Scheduler.FindFreeUninstall | lib/_emerge/Scheduler.py:1786-1791 | the first queued uninstall without children |
| Schedulers.Scheduler.FindFree | lib/_emerge/Scheduler.py:1793-1799 | the first queued package that depends on no scheduled merge, packages behind it ignored |
| Schedulers.Scheduler.ChoosePkg | lib/_emerge/Scheduler.py:1760-1810 | the choice and the new queue, graph and flag that SchedulerTheorems reasons about; nothing else changes |
| Schedulers.Scheduler.CanAddJob | lib/_emerge/Scheduler.py:1890-1969 | no job after termination, above the maximum, or when load, space or delay hold it back |
| Schedulers.Scheduler.ScheduleTasksImp | lib/_emerge/Scheduler.py:2194-2253 | starts packages until one of the stop conditions holds, and says whether anything started |
| Schedulers.Scheduler.StartChosen | lib/_emerge/Scheduler.py:2219-2253 | a package is launched with its token, or put back at the head when none is available |
| Schedulers.Scheduler.LaunchUninstall | lib/_emerge/Scheduler.py:2233-2239 | an uninstall goes to the front of the merge queue |
| Schedulers.Scheduler.LaunchBuild | lib/_emerge/Scheduler.py:2241-2253 | a build counts as a job, holds its token and joins the jobs queue with its listeners in order |
| Schedulers.Scheduler.MoveMerges | lib/_emerge/Scheduler.py:1981-2016 | merges move from merge-wait to the merge queue, one alone for a system package |
| Schedulers.Scheduler.ScheduleTasks | lib/_emerge/Scheduler.py:1971-2052 | the whole loop and the main exit; it ends |
| Schedulers.Scheduler.ScheduleMergeWakeup | lib/_emerge/Scheduler.py:2077-2081 | the wakeup is used up, and _schedule runs unless the main exit is done |
| Schedulers.Scheduler.HandleMergeExit | lib/_emerge/Scheduler.py:1497-1504 | a merge leaves the running tasks and its outcome is recorded |
| Schedulers.Scheduler.HandleMergeWaitExit | lib/_emerge/Scheduler.py:1493-1495 | the same for a merge-wait merge, which also leaves its list |
| Schedulers.Scheduler.HandleBuildExit | lib/_emerge/Scheduler.py:1567-1617 | the token is released, the build becomes a merge, is dropped or fails, and the job is no longer counted |
| Schedulers.Scheduler.Promote | lib/_emerge/Scheduler.py:1575-1596 | a finished build becomes a running merge in the merge-wait queue or the merge queue |
| Schedulers.Scheduler.HandleSystemMergeStarted | lib/_emerge/Scheduler.py:1455-1491 | unsatisfied direct runtime dependencies of a system package are noted, on the main root only |
| Schedulers.Scheduler.TerminateTasks | lib/_emerge/Scheduler.py:378-397 | idle tasks leave with their tokens, queues are cleared, live tasks stay until their exit |
| Schedulers.Scheduler.HandleTerminationCheck | lib/_emerge/PollScheduler.py:81-104 | tasks are terminated once |
| Schedulers.Scheduler.RunCallback | lib/_emerge/Scheduler.py:1676-1677 | one turn of the event loop keeps the invariant and does what the model's step does |
| TaskQueues.SettleFills | lib/_emerge/SequentialTaskQueue.py:28-46 | scheduling leaves nothing waiting while there is room and keeps the bound |
| TaskQueues.SettleTakesPrefix | lib/_emerge/SequentialTaskQueue.py:36-44 | what is started is a prefix of the queue without the cancelled tasks, in order |
| TaskQueues.SequentialTaskQueue.Add | lib/_emerge/SequentialTaskQueue.py:20-22 | the task joins the end and the queue settles |
| TaskQueues.SequentialTaskQueue.AddFront | lib/_emerge/SequentialTaskQueue.py:24-26 | the task joins the front and the queue settles |
| TaskQueues.SequentialTaskQueue.Schedule | lib/_emerge/SequentialTaskQueue.py:28-46 | the loop reaches the settled queue |
| TaskQueues.SequentialTaskQueue.TaskExit | lib/_emerge/SequentialTaskQueue.py:48-56 | the task leaves and the queue settles |
| TaskQueues.SequentialTaskQueue.Clear | lib/_emerge/SequentialTaskQueue.py:58-67 | nothing waits, and all waiting and running tasks are cancelled |
| TaskQueueRuns.QueueDiscipline | lib/_emerge/SequentialTaskQueue.py:20-67 | over any interleaving a queue runs at most its maximum, starts each task at most once, and has waiting tasks only when it is full |
| AsyncTasks.CalledAfterReturncode | lib/_emerge/AsynchronousTask.py:184-209 | in every run no listener is called before the return code is set, and a callback finds its handle |
| AsyncTasks.CallsAccounted | lib/_emerge/AsynchronousTask.py:162-209 | for each listener in every run: calls made, removals while pending and a pending call add up to the registrations that found it not pending |
| AsyncTasks.CalledTwiceExactly | lib/_emerge/AsynchronousTask.py:53-58 | in every run a listener is called more than once if and only if it is added while it is not pending although it was called before, stays pending, and ceases to be so by something else than its removal |
| AsyncTasks.CallsInOrder | lib/_emerge/AsynchronousTask.py:162-209 | if no listener is registered twice, the calls made and then the pending ones are the registrations not removed, in order |
| AsyncTasks.DrainCallsAll | lib/_emerge/AsynchronousTask.py:207-209 | an idle event loop has called everything that was pending |
| AsyncTasks.ExactlyOnceInOrder | lib/_emerge/AsynchronousTask.py:162-209 | when the loop is idle, each listener registered once and not removed was called exactly once, in registration order |
| AsyncTasks.RegisteredAgainCalledAgain | lib/_emerge/AsynchronousTask.py:53-58 | a listener registered with an idle loop is called next, whether or not it was called before |
| AsynchronousTasks.AsynchronousTask.AddExitListener | lib/_emerge/AsynchronousTask.py:162-170 | the registration, and the hook when the return code is set |
| AsynchronousTasks.AsynchronousTask.RemoveExitListener | lib/_emerge/AsynchronousTask.py:172-182 | the first registration goes, and a scheduled callback is cancelled |
| AsynchronousTasks.AsynchronousTask.WaitHook | lib/_emerge/AsynchronousTask.py:184-205 | each listener without a handle is scheduled, in order |
| AsynchronousTasks.AsynchronousTask.AsyncWait | lib/_emerge/AsynchronousTask.py:36-59 | the second notification adds nothing to the first |
| AsynchronousTasks.AsynchronousTask.Dispatch | lib/_emerge/AsynchronousTask.py:207-209 | the handle goes and the listener is called; the invariant is kept |
| UnmergeOrder.DepPriority.Value | lib/_emerge/UnmergeDepPriority.py:34-45 | in range; the maximum exactly for install-time, above the minimum exactly for run-time kinds |
| UnmergeOrder.BuildGraph | lib/_emerge/actions.py:1613-1680 | the graph has exactly the packages and exactly the dependencies between different ones, with ascending priorities |
| UnmergeOrder.AddDepContent | lib/_emerge/actions.py:1680 | one arc and priority are added and nothing else changes |
| UnmergeOrder.AlwaysRoots | lib/_emerge/actions.py:1710-1716 | a non-empty graph always has a package to remove: the assertion cannot fail |
| UnmergeOrder.BatchJustified | lib/_emerge/actions.py:1711-1723 | a package removed while another depends on it is removed alone, and what is left has a cycle at least as hard |
| UnmergeOrder.CleanOrderSound | lib/_emerge/actions.py:1687-1726 | every package exactly once; each dependency before its dependent is justified by a cycle in what is left |
| UnmergeOrder.TopologicalWithoutCycles | lib/_emerge/actions.py:1591-1594 | without a cycle that hard, a package precedes all its dependencies of that hardness |
| UnmergeOrder.BatchChoice | lib/_emerge/actions.py:1711-1723 | at the first level with root nodes: all of them from the highest to the lowest when nothing is looked past, else the highest alone |
| UnmergeOrder.FewestReferencesFirst | lib/_emerge/actions.py:1694-1704 | the removal starts from the packages by ascending number of dependents |
| UnmergeOrder.NextBatch | lib/_emerge/actions.py:1711-1723 | the loop over levels finds the batch that the lemmas are about |
| UnmergeOrder.RemoveNodes | lib/_emerge/actions.py:1724-1726 | removing one by one is removing the set, and lists the cpvs in order |
| UnmergeOrder.RemovalOrder | lib/_emerge/actions.py:1687-1726 | the cpvs of that order; ordered exactly when there is a dependency |
| Sorting.SortBySorted | lib/_emerge/actions.py:1701-1704 | the sort puts keys in ascending order |
| EbuildIpc.StepKeepsInv | lib/_emerge/EbuildIpcDaemon.py:36-93 | every system call of any client or the daemon keeps the protocol's invariant |
| EbuildIpc.FifoEmptyAtClose | lib/_emerge/FifoIpcDaemon.py:27-36 | whenever the daemon is about to close its read end, or has it closed, no request is in the fifo |
| EbuildIpc.NoOpenInGap | bin/ebuild-ipc.py:82-112 | a client that can open or write the request fifo finds the read end open: no ENXIO, no EPIPE |
| EbuildIpc.OneExchange | bin/ebuild-ipc.py:147-156 | at most one client is in an exchange, and never while the daemon reopens on its own account |
| EbuildIpc.OneReplyEach | bin/ebuild-ipc.py:258-295 | no exchange fails, nothing is lost, each request is served once and its sender has its reply, in order |
| EbuildIpc.NeverStuck | bin/ebuild-ipc.py:258-295 | while the lock is held some step is possible that brings the exchange closer to its end |
| BuildDirLock.StepKeepsInv | lib/_emerge/EbuildBuildDir.py:66-155 | every step of any agent or helper keeps the protocol's invariant |
| BuildDirLock.MutualExclusion | lib/_emerge/EbuildBuildDir.py:85-97 | two agents never hold one build directory or category lock; a done async_lock really holds its lock |
| BuildDirLock.CategoryStays | lib/_emerge/EbuildBuildDir.py:139-147 | the category directory exists while a lock under it is held or being taken, and no assertion fails |
| BuildDirLock.FutureAfterRelease | lib/_emerge/AsynchronousLock.py:205-245 | when an unlock future can be done, its agent no longer holds the lock |
| BuildDirLock.NoWaitCycle | lib/_emerge/EbuildBuildDir.py:66-155 | no path of waiting agents returns to its start |
| BuildDirLock.NeverStuck | lib/_emerge/AsynchronousLock.py:256-292 | an agent under way can move, or waits for one that can, that holds a finished lock, or that has leaked the category lock |
| BuildDirLock.LeakedExactly | lib/_emerge/EbuildBuildDir.py:73-80 | in every run an agent has leaked its lock if and only if its mkdir failed in some step before |
| BuildDirLock.LeakedHolds | lib/_emerge/EbuildBuildDir.py:73-80 | from then on, whatever follows, it owns the category lock |
| BuildDirLock.LeakReachable | lib/_emerge/EbuildBuildDir.py:73-80 | two steps lead there |
| BuildDirLock.LeakedForever | lib/_emerge/EbuildBuildDir.py:73-80 | after a failed mkdir the category lock is held for ever |
| Chpath.BinaryReplacesAll | bin/chpathtool.py:83-127 | a binary file becomes the file with every leftmost match replaced by slashes and the new prefix |
| Chpath.BinaryFails | bin/chpathtool.py:102-108 | nothing but slashes before the first match: a seek before the start fails |
| Chpath.OnlyMatchesChange | bin/chpathtool.py:110-114 | a replacement of equal length keeps the length and changes exactly the matches |
| Chpath.TextReplacesAll | bin/chpathtool.py:115-122 | a text file becomes the file with all matches replaced if and only if its last match does not end it or the new prefix is not shorter; the new prefix may be empty |
| ChpathBack.RoundTrip | bin/chpathtool.py:100-114 | if the new prefix is found exactly where it was written, rewriting back restores the file |
| ChpathBack.RoundTripByOccurrence | bin/chpathtool.py:100-114 | in particular if it occurs at no other place |
| ChpathPrefixes.RoundTripExactly | bin/chpathtool.py:100-114 | for telling prefixes the file is restored if and only if the new prefix is found where it was written |
| ChpathPrefixes.TellsExactly | bin/chpathtool.py:100-114 | that holds for all files if and only if the prefixes are telling: of one length, or the new one has a byte of its own, or it is not all slashes and in neither of two relations to the old one that concern their slashes and beginnings; pairs in one of the relations without a common beginning are left open |
| ChpathPrefixes.PathsTell | bin/chpathtool.py:100-114 | it holds for all paths with one slash at the beginning and at most one at the end |
| ChpathWrong.WrongMeans | bin/chpathtool.py:100-114 | a file restored after a replacement at a wrong place has prefixes in one of those relations |
| ChpathFails.SlashesDoNotTell | bin/chpathtool.py:100-114 | for a shorter new prefix of slashes a file is restored although the prefix is found elsewhere |
| ChpathFails.CutDoesNotTell | bin/chpathtool.py:100-114 | so it is when the new prefix begins the old one and the next old prefix is written over its last slashes |
| ChpathFails.SharedDoesNotTell | bin/chpathtool.py:100-114 | and when it begins the old one and two old prefixes may share slashes |
| ChpathPrefixes.PrefixDoesNotTell | bin/chpathtool.py:100-114 | among these: every old prefix that begins with another byte and ends with a slash, with each of its proper beginnings |
| ChpathPrefixes.SlashAtEndDoesNotTell | bin/chpathtool.py:100-114 | and every new prefix that ends with a slash and is not all slashes, with a slash before it as the old one |
| ChpathTool.SeekBack | bin/chpathtool.py:102-108 | counts the slashes before the match, failing exactly when there is nothing else |
| ChpathTool.PadAndWrite | bin/chpathtool.py:110-114 | writes as many slashes as the count allows, then the new prefix |
| ChpathTool.ReplaceInText | bin/chpathtool.py:115-122 | the rest of the file moves behind the new prefix |
| ChpathTool.ChpathInplace | bin/chpathtool.py:61-134 | the backtracking loop rewrites the file as specified, and says whether it did |
| Chpath.EmptyReplacementRepeats | bin/chpathtool.py:115-122 | an empty new prefix for a match that ends a text file leaves file and position as they are, and the match is found again |
| Utf8.DecodeSound | core-functions/shquote.c:143-168 | what is decoded is the encoding of a code point that may be encoded, with its length |
| Utf8.DecodeComplete | core-functions/shquote.c:143-168 | every such encoding is decoded |
| Utf8.KeptOnFailure | core-functions/shquote.c:137-168 | when decoding fails, the code point is kept for every previous value if and only if the lead byte or the guard on the second byte refuses; otherwise the result does not depend on the previous value |
| Utf8.DecodeChangesOnFailure | core-functions/shquote.c:137-141 | an invalid input that changes the code point |
| Utf8.U8decode | core-functions/shquote.c:143-168 | the decoder, which reads no byte behind the terminating NUL |
| Shquote.VerbatimIsPlain | core-functions/shquote.c:73-97 | a string printed verbatim has only bytes that may stand unquoted |
| Shquote.QuotedLexed | core-functions/shquote.c:64-135 | the shell reads a printed string as one word with the bytes of the string, in both modes |
| Shquote.LineSplits | core-functions/shquote.c:47-62 | the shell splits the line into the arguments that are not empty |
| Shquote.RoundTrip | core-functions/shquote.c:47-135 | the shell reads back exactly the arguments if and only if none is empty |
| Shquote.LineClean | core-functions/shquote.c:64-135 | without POSIXLY_CORRECT any arguments give a line of valid UTF-8 without control bytes before the newline |
| Shquote.FindStyle | core-functions/shquote.c:70-91 | the scan finds the style that the lemmas are about |
| Shquote.PrintShquoted | core-functions/shquote.c:93-135 | the loops print the quoted string |
| Shquote.PrintLine | core-functions/shquote.c:47-62 | the whole output |
| XattrHelper.RoundTrip | bin/xattr-helper.py:39-86 | unquoting inverts quoting whenever backslashes or all octal digits are quoted |
| XattrHelper.ReadBackExactly | bin/xattr-helper.py:39-92 | every string is read back if and only if backslashes or all octal digits are quoted |
| XattrHelper.BackslashNeeded | bin/xattr-helper.py:89-92 | a backslash before three equal octal digits that are not quoted is not read back when backslashes are not quoted |
| XattrHelper.QuoteRemoves | bin/xattr-helper.py:39-60 | a byte that is neither a backslash nor an octal digit is in the quoted string if and only if it is in the string and not to be quoted |
| XattrHelper.FilesRestored | bin/xattr-helper.py:110-129 | what restoring any dump does, file by file, including names that look like file lines |
| XattrHelper.DumpRestores | bin/xattr-helper.py:89-129 | restoring a dump does not fail, and replays exactly the dumped triples in order if and only if no name begins like a file line |
| XattrHelper.QuoteBytes | bin/xattr-helper.py:39-60 | the search loop quotes as specified |
| XattrHelper.UnquoteBytes | bin/xattr-helper.py:63-86 | the search loop unquotes as specified, with an error above 255 |
| XattrHelper.DumpXattrs | bin/xattr-helper.py:89-107 | the dump of the files that have attributes |
| XattrHelper.RestoreXattrs | bin/xattr-helper.py:110-129 | the attributes set, in order, and the error that ends the restoration |
| VirtualDb.RemoveKeepsAgreement | lib/_emerge/PackageVirtualDbapi.py:130-139 | a removal takes the package out of both indexes; what is not there is a KeyError and changes nothing |
| VirtualDb.InjectOutcome | lib/_emerge/PackageVirtualDbapi.py:110-128 | an injection replaces exactly the packages with its cpv or slot, and the indexes agree afterwards if and only if it does not replace its whole list |
| VirtualDb.UpgradeDetaches | lib/_emerge/PackageVirtualDbapi.py:120-128 | an upgrade of the only package of its cp hides the new one from its cp |
| VirtualDb.RunAgrees | lib/_emerge/PackageVirtualDbapi.py:110-139 | in every run without such injections the indexes of all databases and copies agree |
| VirtualDb.VersionsAscending | lib/_emerge/PackageVirtualDbapi.py:95-102 | cp_list gives every listed version in ascending order |
| VirtualDb.MatchesSatisfy | lib/_emerge/PackageVirtualDbapi.py:81 | a version is matched exactly when it is listed, held and satisfies the atom |
| VirtualDb.AnswersRecompute | lib/_emerge/PackageVirtualDbapi.py:75-83 | with a right cache, match answers what the indexes give and leaves a right cache |
| VirtualDb.CpListAnswers | lib/_emerge/PackageVirtualDbapi.py:88-102 | the same for cp_list, whose cache key is that of the plain atom |
| VirtualDb.StepKeepsCaches | lib/_emerge/PackageVirtualDbapi.py:24-147 | every operation, also a failing one, keeps all caches right, unless it updates metadata behind a cached answer of another database |
| VirtualDb.RunAnswers | lib/_emerge/PackageVirtualDbapi.py:69-102 | in every run without such updates each answer is what the indexes give |
| VirtualDb.StaleUpdateBreaks | lib/_emerge/PackageVirtualDbapi.py:145-147 | any update behind a cached answer of another database makes a right cache wrong for some matcher |
| VirtualDb.UpdateSafeExactly | lib/_emerge/PackageVirtualDbapi.py:145-147 | an update is safe for all matchers and values if and only if no other database has a cached answer that depends on the object |
| VirtualDb.SharedUpdateStales | lib/_emerge/PackageVirtualDbapi.py:145-147 | such an update makes a copy's answer wrong |
| VirtualDbapi.PackageVirtualDbapi.ClearAll | lib/_emerge/PackageVirtualDbapi.py:24-31 | everything goes, if there was anything |
| VirtualDbapi.PackageVirtualDbapi.Copy | lib/_emerge/PackageVirtualDbapi.py:33-40 | the same contents with package lists of its own and shared cached lists |
| VirtualDbapi.PackageVirtualDbapi.CpListOf | lib/_emerge/PackageVirtualDbapi.py:88-102 | the answer in a new list that no database holds |
| VirtualDbapi.PackageVirtualDbapi.Match | lib/_emerge/PackageVirtualDbapi.py:75-83 | the answer in a new list that no database holds |
| VirtualDbapi.PackageVirtualDbapi.CpvRemove | lib/_emerge/PackageVirtualDbapi.py:130-139 | both indexes, the cache, the error, and what becomes of the list object |
| VirtualDbapi.PackageVirtualDbapi.CpvInject | lib/_emerge/PackageVirtualDbapi.py:110-128 | both indexes, the cache and the error, with the list object held throughout |
| VirtualDbapi.PackageVirtualDbapi.AuxUpdate | lib/_emerge/PackageVirtualDbapi.py:145-147 | the shared object's metadata change and this database's cache is cleared |
| VirtualDbapi.Perform | lib/_emerge/PackageVirtualDbapi.py:24-147 | any call of one of several databases, with the list that it gives overwritten, changes them as the operation on values does; they still share no list of an index |
| VirtualDbapi.Session | lib/_emerge/PackageVirtualDbapi.py:24-147 | after any sequence of calls of any number of databases and copies, with all lists given to callers overwritten, each database is what the same run on values gives |

## Left out

The functions of `SchedulerModel`, `AsyncTasks`, `VirtualDb` and the other specification modules say what one
operation does; the rows above name the methods that are proved to do it and the lemmas about it.

Scheduler:

- One _merge run with the digraph present; not fetchonly, --nodeps, keep-going restarts or the SIGUSR2 flush.
- All nodes of the graph are packages, and the merge list holds merges and uninstalls, none of them onlydeps.
- The fetch, unpack and ebuild-locks queues; setup phases use the merge queue, are not queued after termination and leave it before their build exits.
- Builds, merges and setup phases are opaque: a started task gets a return code at some later step. Task identities are not reused.
- The coroutine that waits for the merge queue to become empty: a flag, with an event that is possible while the queue is empty.
- Load average, free space, job delay, jobserver errors and other jobserver clients are functions of a clock that counts consultations.
- The queues are values in the scheduler class; `TaskQueues.SequentialTaskQueue` is the class of their own operations. The `_scheduling` guards are not fields, since handlers run one after the other.
- Status display, logging, configuration pools, blockers, the resume list and pkg_to_replace lookups beyond their answer.
- The interface of lib/corepkg/util/digraph.py: nodes and children in insertion order, priorities of an arc in ascending order; an arc added to an existing one puts its priority last.
- Sorting.SortBySorted: states the order only; that the sort is stable is in the definition and used nowhere.

Task listeners:

- Start listeners, cancellation and futures; the callbacks of other tasks on the same loop, which do not touch this one's.
- AsyncTasks.CallsInOrder: assumes that no listener is registered twice, because a removal takes the first of several registrations and so may move a listener back; AsyncTasks.CallsAccounted holds without that.

Unmerge order:

- Which dependencies match which packages (dep_check, atoms) is an input. Package comparison is a rank.

Protocols:

- A request fits one read, a reply fits the pipe, clients are not killed, the daemon stays alive; lockfile is a mutex. Timeouts, pickling and reply hooks.
- EbuildIpc.NeverStuck: gives the next step and its progress, not fairness between processes.
- Failure to take a build directory lock (lib/_emerge/EbuildBuildDir.py:87-92 uses a method without calling it), cancelling an acquired lock, the lock thread, and helpers that die after they have signalled.
- The parent of the category directory exists, nobody else removes directories, and the lock file of a build directory is in its category directory.

Byte tools:

- Opening, modes and times of files, symbolic links and the test for text files; short writes.
- ChpathTool.ChpathInplace: for a text file and an empty new prefix, requires that no match ends the file, because there the loop of chpath_inplace never ends (Chpath.EmptyReplacementRepeats).
- ChpathPrefixes.TellsExactly: leaves open the prefixes for which Unclear holds: the old one begins with more slashes than the new one and may share them with the one before, and behind the slashes both begin with the same byte but do not go on alike.
- The shell's `\x`, `\c` escapes and everything that is not plainly quoted text: the reference refuses them.
- The output stream is a sequence of bytes; xattr.list, get and set are inputs and outputs of the dump and the restoration.

Package database:

- Atom matching is an arbitrary condition on a package and its metadata, and dep_expand is the identity.
- VirtualDb.StepKeepsCaches: updates behind another database's answers are excluded by a condition on who shares the object; VirtualDb.UpdateSafeExactly proves that no weaker condition is enough for all matchers.
- Lookups by item, settings and categories.
