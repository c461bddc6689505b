# Verified model of the desktop shell

A Dafny 4.11 model of the parts of the coding agent's desktop shell that keep
state, run concurrently, or page and canonicalise data, with proofs of what they
promise. `dafny verify dfyconfig.toml` checks all of it.

How it is built. Each object whose methods update fields is a class with those
fields; each of its critical sections is a method proved against a function on
the fields' values. Concurrency is a step system over those functions: a run is
any interleaving of any number of callers, and the main results are statements
about every state of every run. Data structures are imperative code proved
against an independent definition (the flat tape, the sorted smallest members,
the longest valid prefix, the finite map by ID).

| file | models |
|---|---|
| RuntimeLocks, LockPrograms | a writer-preferring read-write lock with gates and leaves; the lock programs of submits, switches, rebinds, mutations, deletions, purges, setters and builds |
| TurnAdmission, TurnToken | turns against runtime mutations; the admission token |
| DeferredRebuild | the deferred rebuild flags, loop and kicks |
| WatcherPersistence | the bot bridge's watcher set and its persisted copy |
| Takeover | remote takeover of tabs and the local grab-back |
| RemoteManager, ServeStart | SSH connection generations and prompts; the two-phase Serve start |
| PromptHistory, HistoryPages | cursor paging of prompts; turn-window paging of messages |
| CheckpointPreview, MediaTokens, Utf8Trim, AlphaRecovery | bounded preview, token store, UTF-8 cuts, alpha from two composites |
| SshDestination, RemoteHostStore, KeyedList, StringOrder | destination parser and printer; the host store as a finite map |
| Text, Wrappers | white space, trimming and byte lengths; Option |
| HeartbeatCalendar, HeartbeatRuns | the last occurrence not after now; due tasks, executeTask section by section, ticks, manual runs and merges |
| HeartbeatHistory, HeartbeatOrder, HeartbeatTopics, HeartbeatRepeats | histories of overlapping runs; the order of submits; topics against submits; when an occurrence is served twice |

## What turned out false, and when it holds

- **Monthly lookup.** Going back a month by `AddDate(0, -1, 0)` runs over into the
  same month when it is too short. The result is the latest occurrence exactly
  when this month's is past or now's day exists in the previous month
  (`MonthlyIsLatestIff`; `MarchSkipsFebruary` fails in every year).
- **Weekly and biweekly lookups** find nothing exactly when every listed day is
  today's weekday, its time is still to come, and (biweekly) this week is an even
  one (`WeeklyFindsNothingIff`; `MorningFindsNothing` on any day). The due check
  then falls through to the plain interval (`OnlyLaterTodayFallsThrough`).
- **One run per occurrence** does not follow from the absence of edits and failed
  saves: a manual run that overlaps a tick merges the last run of its older
  snapshot, and the occurrence is served again (`OverlapServesTwice`). An entry
  keeps knowing the submits exactly when the update merged into it has no last
  run, or one not before any submit merged by then (`MergeKnowsIff`). When every
  merge meets that, and every list installed otherwise knows the submits, ticks
  serve increasing occurrences over all interleavings
  (`CalendarRunsServeLaterOccurrences`); updates that move no last run back are
  enough (`QuietForwardIsSound`), and so are runs one after another
  (`QuietSequentialIsSound`). After a failed save, or any other sound past, an
  occurrence can be served again exactly when an entry of the file is due for it
  (`NoRepeatIff`, `FailedSaveServesTwice`).
- **DriveInput's automatic release** reads the tab and deletes the pair in two
  locked sections. The maps stay inverse exactly when, at the deletes, the chat
  still drives that tab or neither side has an entry (`LapseKeepsInverseIff`,
  `LapseRace`).
- **The /effort path** reclaims a tab without its turn gate, so a remote drive
  past its re-check may still submit, and exactly then (`UngatedReclaimOvertakenIff`;
  `EffortOvertakenRun` is such a run).
- **A seed** that applies offers the newest watcher set in every continuation
  exactly when the newest SetWatch is neither queued nor writing at the version
  read (`SettledIffSeedsNewest`); otherwise it can restore the list the file had
  before that write (`StaleSeed`), and a run from an empty start does
  (`StaleSeedRun`). Routes also come back trimmed, so what was persisted reloads
  as it was exactly when its routes are trimmed (`SeedOfPersisted`).
- **History paging** tiles the transcript when there is a visible user turn; with
  none, and only then, the first page is empty and offers nothing older
  (`NoTurnShowsNothing`).
- **Checkpoint file counts.** `FileCount` counts an empty path, which `Files` never
  shows: the count is that of the files that could be shown exactly when no turn
  touched the empty path (`CountsWithEmptyPath`, `EmptyPathIsCounted`).

## Handlers without a result of their own

These methods are proved to leave the state they name, and equal to the step
functions the run theorems use: `Clear` (`desktop/deferred_rebuild.go`), and
`ReloadTasks`, `ReplaceTasks` and `AdoptExternalEditsLocked`
(`desktop/heartbeat.go`; `EditIsAdopted`, `ListIsInstalled`).

## Model

| member | source | states |
|---|---|---|
| LockPrograms.SubmitIsDisciplined | desktop/app.go:1159-1204 | a submit takes the read side, then the tab gate, then the reconcile leaf, never runtimeRebuildMu, and releases everything |
| LockPrograms.SwitchIsDisciplined | desktop/app.go:10014-10031 | a switch holds runtimeRebuildMu, takes the tab gate, checks that the tab is idle, then asks for the read side, and releases everything, also when the check fails |
| LockPrograms.MutationIsDisciplined | desktop/app.go:7936-7970 | a mutation over any distinct tabs takes every gate, checks that no tab has work, repairs and mutates only past that check, and releases each gate once in reverse, also when the check fails |
| LockPrograms.RebindIsDisciplined | desktop/app.go:4173-4286 | a rebind takes runtimeRebuildMu, the write side, then the tab gate, and releases everything |
| LockPrograms.ClearIsDisciplined | desktop/app.go:2359-2367 | clearing a session takes runtimeRebuildMu, the tab gate, then the removal leaf, and releases everything |
| LockPrograms.DeleteIsDisciplined | desktop/app.go:3394-3396 | deleting a session takes runtimeRebuildMu, the write side, then the removal leaf, and releases everything |
| LockPrograms.ShortProgramsAreDisciplined | desktop/app.go:1890-1896 | plain setters, purge, workspace repair, builds and startup rebuilds keep the discipline |
| LockPrograms.NavigationIsDisciplined | desktop/tabs.go:2383-2400 | singleSurfaceMu is outermost: any operations that keep the discipline without it keep it when navigation runs them under it |
| LockPrograms.EveryProgramIsDisciplined | desktop/app.go:174-187 | every lock program obeys the documented order, so it is one of the threads the run results quantify over |
| LockPrograms.EveryProgramDoesItsWork | desktop/app.go:7936-7970 | a program not refused comes to its own work: the submit, the rebuild, the mutation of its tabs, the rebind, the removal; one refused at its admission or idle check never does |
| LockPrograms.NavigationDoesItsWork | desktop/tabs.go:2383-2400 | so does every operation navigation runs under singleSurfaceMu |
| RuntimeLocks.RunKeepsInv | desktop/app.go:174-187 | in every reachable state of any number of threads, each running any operations that keep the discipline, all locks exclude each other |
| RuntimeLocks.ConflictsExclude | desktop/app.go:174-187 | in every reachable state no two threads are about to do conflicting work: two runtime or session changes, two removals, a rebind or deletion and a turn or build, or anything on one tab |
| RuntimeLocks.NoQueuedWriterAtRebuildHolder | desktop/app.go:181-187 | while a thread holds runtimeRebuildMu no other thread is queued or inside as a writer |
| RuntimeLocks.RebuildHolderLeadsToStep | desktop/app.go:10014-10031 | a thread holding runtimeRebuildMu can step, or what it waits for leads to a thread that can |
| RuntimeLocks.DeadlockFree | desktop/app.go:174-187 | in every reachable state with an unfinished thread some thread can step, whatever disciplined operations the threads run |
| RuntimeLocks.StuckMeansFinished | desktop/app.go:174-187 | when nothing can step every thread has finished and holds no lock |
| LockPrograms.GateBeforeReadDeadlocks | desktop/app.go:1172-1177 | with a submit that took the gate before the read side, four steps reach a state where nothing can step |
| TurnAdmission.HistoryIsGood | desktop/app.go:1127-1204 | over every history tokens hold the read side and their tab's gate, checked tabs are gated and idle, and the log agrees with the running turns |
| TurnAdmission.OneTurnAtATime | desktop/app.go:1200-1204 | no tab ever has two turns at once |
| TurnAdmission.CheckedTabsStayIdle | desktop/app.go:7936-7970 | a caller past its idle check gates every selected tab and finds each one idle until it releases it |
| TurnAdmission.NoStartWhileChecked | desktop/app.go:7936-7970 | between the idle check and the release no turn starts on a selected tab |
| TurnAdmission.NoAdmissionUnderWriter | desktop/app.go:7705-7719 | while a mutation is inside the write side no admission is in flight: each has settled or has yet to begin |
| TurnAdmission.NoStartUnderWriter | desktop/app.go:7705-7719 | while a mutation is inside the write side no turn starts on any tab |
| TurnAdmission.StartStep | desktop/app.go:1214-1235 | a turn only starts on an idle tab, under nobody's idle check, with no writer inside |
| TurnAdmission.MutatedTabsAreIdle | desktop/app.go:7936-7970 | every mutation in the log of a history was made by a thread that then held runtimeRebuildMu and the gates of its tabs, had itself found them idle, and saw none of them with a turn |
| TurnAdmission.BusyTabRefusesMutation | desktop/app.go:7960-7967 | a switch or mutation at its idle check is refused while a tab it covers has a turn, and what it does after that holds no mutation |
| TurnAdmission.SomeThreadActs | desktop/app.go:174-187 | turns and mutations never deadlock: at every moment of a history with an unfinished thread some thread's next step follows, whatever turns are running |
| TurnAdmission.InvokeStarts | desktop/app.go:1159-1204 | a submit under a fresh token can start its turn, otherwise nothing comes of it, and the token cannot submit again |
| TurnAdmission.StepEffects | desktop/app.go:1127-1155 | an admission reserves a free sink, an idle check succeeds exactly when no tab it covers has a turn, a mutation is logged, and settling frees the sink unless the turn is running |
| TurnAdmission.TurnCanEnd | desktop/app.go:1127-1155 | a turn can always end and then free its sink, keeping it in between |
| TurnToken.ReleasedExactlyOnce | desktop/app.go:1133-1155 | any order and number of finish and abort calls releases both locks once, and keeps the reservation only if the first was a finish that saw its turn running |
| TurnToken.OnlyFirstCallReportsStart | desktop/app.go:1133-1155 | only the first call can report a started turn |
| TurnToken.TabTurnAdmission.FinishWith | desktop/app.go:1133-1151 | finish reports a running turn once, cancels the reservation otherwise and releases gate and read side once |
| TurnToken.TabTurnAdmission.AbortTurn | desktop/app.go:1153-1155 | abort is finish without a controller |
| DeferredRebuild.DeferredRebuildState.StartLoopLocked | desktop/deferred_rebuild.go:54-66 | a loop is spawned exactly when armed, idle, not stopped and with work; then running is set and the channel exists |
| DeferredRebuild.DeferredRebuildState.Enable | desktop/deferred_rebuild.go:46-52 | arming leaves nothing pending without a running loop, and changes no other flag |
| DeferredRebuild.DeferredRebuildState.Schedule | desktop/deferred_rebuild.go:71-87 | scheduling records the trimmed tab under its latest label, changes no other entry or flag, and leaves the loop running when armed; a blank tab or a stop changes nothing |
| DeferredRebuild.DeferredRebuildState.Stop | desktop/deferred_rebuild.go:118-129 | stopping closes an open channel once |
| DeferredRebuild.DeferredRebuildState.Tick | desktop/deferred_rebuild.go:156-174 | a tick is done when stopped or empty, marks idle only if asked, and otherwise copies the pending tabs |
| DeferredRebuild.RunKeepsInv | desktop/deferred_rebuild.go:36-66 | in every interleaving the running flag and the single live loop agree, and armed pending work has its loop |
| DeferredRebuild.NoLostRetry | desktop/deferred_rebuild.go:118-183 | armed, not stopped and pending work imply the loop is running and live, whatever kicks, clears and schedules interleave |
| DeferredRebuild.PendingUntilCleared | desktop/deferred_rebuild.go:71-106 | what is scheduled stays pending under its latest label until a clear of that tab, whatever ticks, kicks and stops come |
| DeferredRebuild.ScheduledIsPending | desktop/deferred_rebuild.go:71-87 | a schedule not refused is pending at once, with its loop live if armed |
| DeferredRebuild.ClearTakesOne | desktop/deferred_rebuild.go:101-106 | a clear takes its own tab off the list and nothing else |
| DeferredRebuild.NothingStartsAfterStop | desktop/deferred_rebuild.go:118-129 | after a stop no loop starts and nothing is added to the list |
| DeferredRebuild.StoppedLoopExits | desktop/deferred_rebuild.go:131-148 | from every reachable state a stopped loop can run to its end by its own steps, leaving running cleared |
| DeferredRebuild.AtMostOneLoop | desktop/deferred_rebuild.go:54-66 | at most one loop is live and running says whether one is |
| DeferredRebuild.ClearedOnlyWhenDone | desktop/deferred_rebuild.go:131-174 | running is cleared only by an exiting loop, when nothing is pending or a stop was requested |
| DeferredRebuild.StopNeverClosesTwice | desktop/deferred_rebuild.go:118-129 | a stop never meets a channel already closed |
| WatcherPersistence.BotBridgeHub.BeginSetWatch | desktop/bot_bridge.go:384-396 | the first section changes one watcher, takes the next number, marks dirty and lists the new set |
| WatcherPersistence.BotBridgeHub.WatcherRoutes | desktop/bot_bridge.go:440-447 | the list holds every watcher once, sorted by key |
| WatcherPersistence.BotBridgeHub.FinishSetWatch | desktop/bot_bridge.go:400-414 | a call already covered or failed to persist changes nothing; otherwise its number is the last persisted and dirty is cleared if it is the newest |
| WatcherPersistence.BotBridgeHub.SeedWatchers | desktop/bot_bridge.go:423-438 | a seed replaces the set only at the expected version and when nothing is dirty, skipping blank chats |
| WatcherPersistence.SeededIsLast | desktop/bot_bridge.go:429-437 | of the routes with a chat a seed keeps the last of each key and nothing else |
| WatcherPersistence.KeyIdentifiesChat | internal/bot/desktop.go:37-39 | routes without a bar in the first fields share a key exactly when platform, connection, domain and chat agree |
| WatcherPersistence.SeedOfPersisted | desktop/bot_bridge_app.go:138-167 | loading back what was persisted gives the watcher set, less routes without a chat, exactly when every other route is trimmed |
| WatcherPersistence.FileFollowsMemory | desktop/bot_bridge.go:384-415 | written numbers strictly increase, the file lists the set as it stood at lastPersistSeq, which never passes watchSeq, and clean means they are equal |
| WatcherPersistence.EndedCallIsPersisted | desktop/bot_bridge.go:399-415 | a SetWatch call that ends well leaves its set or a newer one in the file, a failed one leaves the file, and either frees persistMu |
| WatcherPersistence.WatchSeqCountsSets | desktop/bot_bridge.go:384-396 | watchSeq counts the SetWatch calls begun |
| WatcherPersistence.VersionWasRead | desktop/bot_runtime_app.go:51-53 | what a refresh holds is the version of an earlier moment of the run, and whether that moment was settled |
| WatcherPersistence.SeedIsFresh | desktop/bot_runtime_app.go:51-65 | a seed takes effect only if no SetWatch began since its version read; if that read was settled, memory then equals the file |
| WatcherPersistence.SettledIffSeedsNewest | desktop/bot_runtime_app.go:51-65 | after a version read in any run, every continuation offers the newest set whenever its seed applies, exactly when the newest SetWatch is neither queued nor writing at that read |
| WatcherPersistence.StaleSeed | desktop/bot_bridge.go:384-438 | from any reachable state with such a write ahead, whoever holds persistMu, a continuation ends clean with memory set to the list the file had before the write |
| WatcherPersistence.StaleSeedRun | desktop/bot_bridge.go:384-438 | a run from an empty start with one SetWatch ends clean with the watched chat in the file and not in memory |
| Takeover.BotBridgeHub.Takeover | desktop/bot_bridge.go:511-549 | only a direct chat takes over a foreground session no other chat holds; its earlier tab is let go |
| Takeover.BotBridgeHub.Release | desktop/bot_bridge.go:551-571 | a release drops the chat's tab in both maps, or reports that there is none |
| Takeover.BotBridgeHub.DriveInput | desktop/bot_bridge.go:579-610 | only the chat's own tab is driven, when its session is in the foreground and idle; a session gone or in the background releases it instead, and every refusal is told apart |
| Takeover.BotBridgeHub.ReclaimFromDesktop | desktop/bot_bridge.go:616-640 | a reclaim drops the tab in both maps and returns the chat to tell |
| Takeover.OperationsKeepValid | desktop/bot_bridge.go:511-640 | every operation keeps the maps inverse and DM-only |
| Takeover.OthersUntouched | desktop/bot_bridge.go:511-640 | no operation touches a takeover between another chat and another tab |
| Takeover.LapseKeepsInverseIff | desktop/bot_bridge.go:579-595 | the two deletes keep the maps inverse exactly when the chat still drives the tab read, or both entries are gone |
| Takeover.LapseRace | desktop/bot_bridge.go:579-595 | a chat that moves tabs in the gap leaves a dangling takeover |
| Takeover.RunKeepsInv | desktop/bot_bridge_app.go:106-136 | over every run the maps stay inverse and DM-only and remote submits follow a takeover newer than any reclaim |
| Takeover.MoveEffects | desktop/bot_bridge.go:551-640 | over every run a release leaves its chat without a tab, a reclaim takes its tab back and is logged, and an unlocked gate is free |
| Takeover.NoRemoteTurnAfterReclaim | desktop/app.go:1177-1184 | after a local turn reclaims a tab, a remote submit on it comes only after a later takeover |
| Takeover.GatedReclaimIsNeverOvertaken | desktop/bot_bridge_app.go:106-136 | when a reclaim runs inside the gate no drive past its re-check is waiting to submit |
| Takeover.UngatedReclaimOvertakenIff | desktop/app.go:1213-1226 | after the /effort reclaim a remote submit is still possible exactly when a drive had passed its re-check |
| Takeover.EffortOvertakenRun | desktop/app.go:1213-1226 | a run from the start in which /effort reclaims a tab and a remote turn is submitted on it afterwards |
| RemoteManager.DesktopRemoteManager.InsertGeneration | desktop/remote_app.go:818-831 | a connect inserts a new generation unless one that has not stopped is in place |
| RemoteManager.DesktopRemoteManager.Disconnect | desktop/remote_app.go:876-910 | a disconnect takes the host out of the table, drops the prompts and prompt ID of its generation, emits stopped, and cancels the prompts it had; an absent host changes nothing |
| RemoteManager.DesktopRemoteManager.OnClientStatus | desktop/remote_app.go:1076-1104 | a replaced generation's status is dropped, and connecting never overwrites a pending prompt |
| RemoteManager.DesktopRemoteManager.ShowPrompt | desktop/remote_app.go:975-1074 | a prompt shows for a current generation only, a secret under a new ID |
| RemoteManager.RunKeepsInv | desktop/remote_app.go:934-1104 | over every run the log, the pending prompts, the gate and every secret channel agree |
| RemoteManager.EventsComeInGenerationBlocks | desktop/remote_app.go:1291-1301 | per host, events come in contiguous blocks, one per generation in insertion order |
| RemoteManager.RetiredGenerationIsSilent | desktop/remote_app.go:1524-1536 | after its disconnect or replacement a generation is never current again, keeps what it had, and emits nothing |
| RemoteManager.DisconnectRetires | desktop/remote_app.go:876-910 | over every run a disconnect takes the host out of the table, "stopped" is the last event of its generation, and at every later moment that generation is not current and has no prompt pending; other hosts keep theirs |
| RemoteManager.CloseRetiresAll | desktop/remote_app.go:1459-1496 | over every run Close empties the table, and no generation up to then is current, emits anything or keeps a prompt at any later moment |
| RemoteManager.ConnectReplacesOnlyStopped | desktop/remote_app.go:818-831 | over every run a connect is refused exactly while the host has a generation that has not stopped; otherwise a fresh one without prompts takes its place and a stopped one is retired |
| RemoteManager.EventsOnlyWhileCurrent | desktop/remote_app.go:1076-1104 | over every run a status or event passes exactly while its generation is current, except connecting over a shown prompt, and a status that passes is the one the host has |
| RemoteManager.AnswerFindsItsPrompt | desktop/remote_app.go:953-973 | over every run an answer is sent on exactly when the host has a secret prompt of that ID shown and not cleaned up, on that prompt's own channel |
| RemoteManager.CleanupEndsPrompt | desktop/remote_app.go:1000-1006 | over every run a cleanup leaves its generation, while current, with no prompt pending and no ID to answer, and touches nothing else |
| RemoteManager.ChannelEffects | desktop/remote_app.go:968-973 | over every run a send fills an empty channel or is dropped, and a prompt takes its answer out; no other channel changes |
| RemoteManager.SecretArrives | desktop/remote_app.go:953-973 | from any run that waits in a secret prompt of a current generation with an empty channel, answering its ID hands the prompt that secret |
| RemoteManager.AtMostOnePrompt | desktop/remote_app.go:975-1074 | at most one host in the table has a prompt waiting for its answer or not yet cleaned up |
| RemoteManager.PendingIffUnderway | desktop/remote_app.go:975-1074 | a host has a prompt pending exactly while one of its current generation is shown and not cleaned up |
| RemoteManager.TwoHostsShowPrompts | desktop/remote_app.go:1092-1095 | the status a host shows can outlast its prompt, so two hosts can show a pending prompt while one has it |
| RemoteManager.SecretReachesOnlyItsPrompt | desktop/remote_app.go:953-973 | a secret is received only by the prompt whose ID it answers, and IDs are not shared |
| ServeStart.ManagedHost.PublishServerIfCurrent | desktop/remote_app.go:1524-1536 | view and token change and are published only on a current generation |
| ServeStart.ManagedHost.PublishFailedServeStart | desktop/remote_app.go:1516-1522 | a failed start puts back a ready server, otherwise shows the failure without a token |
| ServeStart.ManagedHost.EnsureServer | desktop/remote_app.go:1305-1386 | on a generation that stays current, as it does while its sections still find it so, the start succeeds exactly when the config loads, the bootstrap starts a Serve and either the tunnel binds or the reused Serve of the same workspace has its ready server's usable forward; the view is then the previous one or one at the bound address, every refusal returns its own error, and the views are published in order. Failing with a ready server before leaves view and token as at entry, and the forward unless another caller removed it; a Serve it started and could not bind is stopped once, a reused one never |
| ServeStart.ManagedHost.StopServer | desktop/remote_app.go:1388-1416 | a stop is refused exactly for a blank workspace or a failed remote stop and then changes nothing; otherwise it drops forward and token and shows a stopped view |
| PromptHistory.FlatAppend | desktop/app.go:4875-4886 | the tape of two session lists is the two tapes in a row |
| PromptHistory.SessionSlice | desktop/app.go:4829-4873 | each session occupies its own slice of the flat tape |
| PromptHistory.NextSession | desktop/app.go:4836-4853 | leaving an exhausted session does not move the flat position |
| PromptHistory.PromptHistoryTape.EntriesForSession | desktop/app.go:4888-4911 | the cache agrees with a fresh load; a missing or unreadable session is empty |
| PromptHistory.PromptHistoryTape.StartIs | desktop/app.go:4829-4839 | a cursor of another tape starts at the newest entry, and negative parts of this tape's count as zero |
| PromptHistory.PromptHistoryTape.ReadOlder | desktop/app.go:4829-4873 | a page from flat position p is flat[p .. min(p+limit, n)], its cursor the next position, no cursor the end |
| PromptHistory.PromptHistoryTape.ReadAll | desktop/app.go:4875-4886 | for every page limit paging terminates with the concatenation of all sessions |
| CheckpointPreview.SearchStrings | desktop/app.go:2666 | the least index whose element is not below the path |
| CheckpointPreview.ShiftRight | desktop/app.go:2672-2680 | the overlapping copy moves the tail one place right |
| CheckpointPreview.InsertFilePreview | desktop/app.go:2662-2682 | the path goes to its sorted place in the backing array, the largest dropping out when full; empty or present paths change nothing |
| CheckpointPreview.PreviewUnique | desktop/app.go:2635-2660 | the preview is determined by the set and the limit |
| CheckpointPreview.InsertKeepsPreview | desktop/app.go:2662-2682 | inserting a new member keeps the list the sorted smallest members of the larger set |
| CheckpointPreview.AddPath | desktop/app.go:2647-2653 | a path not seen before extends the preview to the larger set; the empty path is never shown |
| CheckpointPreview.AddTurnFiles | desktop/app.go:2647-2653 | one turn's files bring set and preview up to date |
| CheckpointPreview.PassTurn | desktop/app.go:2640-2658 | one step writes row i for turns i and later and leaves the rows already written as they are |
| CheckpointPreview.CheckpointRows | desktop/app.go:2635-2660 | every row shows the 60 smallest nonempty paths touched at or after its turn, their full count, and CanCode exactly when some such turn changed files and all of them are undoable |
| CheckpointPreview.CountsWithEmptyPath | desktop/app.go:2653-2657 | FileCount is the number of files that could be shown exactly when no turn from i on touched the empty path; FilesTruncated holds exactly when there are more than the limit or one is empty |
| CheckpointPreview.EmptyPathIsCounted | desktop/app.go:2653-2657 | one turn that touched only the empty path counts one file, shows none and is reported as cut |
| MediaTokens.MediaTokenStore.CleanupLocked | desktop/app.go:360-381 | cleanup drops expired heads, then trims to the cap |
| MediaTokens.MediaTokenStore.Create | desktop/app.go:383-416 | create cleans, adds the token with its lifetime and trims again |
| MediaTokens.MediaTokenStore.Get | desktop/app.go:418-430 | get returns a live entry and deletes one past its expiry from the map only |
| MediaTokens.DropExpiredExact | desktop/app.go:360-375 | dropping expired heads leaves a queue that is exactly the live tokens |
| MediaTokens.GetKeepsQueue | desktop/app.go:418-430 | get keeps the relation between queue and map, deleting only what expired |
| MediaTokens.CreateMakesExact | desktop/app.go:383-416 | create ends with a queue that is exactly the live keys |
| MediaTokens.HistoryKeepsQueue | desktop/app.go:342-430 | over every history the queue is the latest creations, each in the map or expired |
| MediaTokens.QueueIsLiveKeys | desktop/app.go:383-416 | after every create the queue is exactly the live keys, without repeats, sorted by expiry and at most maxN long |
| MediaTokens.UnexpiredMissingOnlyByEviction | desktop/app.go:338-341 | an unexpired token is missing only if at least maxN tokens were created after it |
| Utf8Trim.ValidAppend | desktop/app.go:10607-10610 | after valid text, the whole is valid exactly when the rest is |
| Utf8Trim.ValidIffEncoded | desktop/app.go:10607-10610 | bytes are valid exactly when they encode some text by the table of section 3 of RFC 3629 |
| Utf8Trim.CutShape | desktop/app.go:10607-10621 | every cut of valid text leaves valid text and a proper part, possibly empty, of one character |
| Utf8Trim.TrimPartialSuffix | desktop/app.go:10607-10621 | for any bytes the trim drops the partial character they end in, if what precedes it is valid, and nothing else |
| Utf8Trim.TrimOfCutIsLongestPrefix | desktop/app.go:10607-10621 | cutting valid text anywhere and trimming gives the longest valid prefix of the cut, at most 3 bytes shorter |
| Utf8Trim.CutAtRuneStart | desktop/app.go:6335-6337 | valid text may be cut before a rune start and nowhere else |
| Utf8Trim.ClipStringBytes | desktop/app.go:6328-6339 | the result is a prefix within the limit; of valid text it is valid and the longest such prefix |
| AlphaRecovery.FromComposites | desktop/external_opener_icon.go:69-100 | buffers of the wrong size are refused; otherwise every pixel of the output is the one recovered from its two composites |
| AlphaRecovery.AlphaIsMeanGap | desktop/external_opener_icon.go:79-88 | whatever the buffers hold, the opacity missing from alpha is the mean gap between them, a channel darker over white having none |
| AlphaRecovery.ChannelSaturates | desktop/external_opener_icon.go:90-94 | a channel is divided by alpha rounding down, and saturates exactly when it reaches it |
| AlphaRecovery.ChannelBounds | desktop/external_opener_icon.go:90-94 | dividing by alpha gives a value in [c - ceil(254/alpha), c] |
| AlphaRecovery.ExactCompositesRecover | desktop/external_opener_icon.go:79-98 | for exact composites the alpha is the true one, an invisible pixel is blank, and each channel, red and blue exchanged, is within its bounds |
| AlphaRecovery.OpaqueIsExact | desktop/external_opener_icon.go:79-98 | an opaque pixel is recovered exactly |
| HistoryPages.VisibleUserTurns | desktop/app.go:6045-6053 | the number of visible user turns |
| HistoryPages.TurnsAre | desktop/app.go:6045-6053 | turns are counted by the messages that open one |
| HistoryPages.MessagesForTurnRange | desktop/app.go:6067-6088 | a window's messages and indexes, what precedes the first turn going with the oldest window |
| HistoryPages.HistoryPage | desktop/app.go:6010-6043 | a page holds the messages its window selects, each once and in order |
| HistoryPages.IndexesAscend | desktop/app.go:6067-6088 | a window selects exactly the messages of its turns, indexes strictly increasing |
| HistoryPages.WindowsJoin | desktop/app.go:6067-6088 | adjacent windows concatenate to their union |
| HistoryPages.WalkCovers | desktop/app.go:6010-6043 | walking back from any turn covers everything before it |
| HistoryPages.PagesTileTranscript | desktop/app.go:6010-6043 | with a visible turn, the walk's windows concatenate to the whole list for every limit |
| HistoryPages.NoTurnShowsNothing | desktop/app.go:6029-6032 | the first page is empty and offers nothing older exactly when there is no visible turn |
| HistoryPages.PageIndexesAscend | desktop/app.go:6067-6088 | a page ends where it was asked to or at the newest turn, covers as many turns as its limit allows, and shows no message twice |
| HistoryPages.PageShows | desktop/app.go:6010-6043 | with a visible turn, a page shows exactly the messages of its turns, and the oldest page what precedes the first |
| HistoryPages.CheckpointTurnsForWindow | desktop/app.go:6090-6101 | a position carries the turn of its original message, and no other position carries one |
| SshDestination.AcceptedIsCanonical | desktop/remote_hosts.go:167-203 | an accepted host is IPv6 text, a dotted quad or a lower-case name that is not numeric |
| SshDestination.CanonicalRoundTrip | desktop/remote_hosts.go:141-203 | a canonical host prints to a form that canonicalises back to it |
| SshDestination.PrintParse | desktop/remote_hosts.go:141-165 | every accepted destination prints to a form that is accepted and parses to the same target |
| SshDestination.CanonicalFormIsUnique | desktop/remote_hosts.go:141-165 | a target has exactly one destination that prints as itself |
| SshDestination.AcceptedIffSpelled | desktop/remote_hosts.go:167-203 | a host is accepted, as h, exactly when it is bracketed IPv6 text of h, a dotted quad, text the library reads as IPv4, or the name h in any case with or without a final dot |
| SshDestination.ParseIff | desktop/remote_hosts.go:152-165 | a destination is accepted, as user and host, exactly when it is user@text with a valid user and text that spells the host, at most 384 bytes and trimmed |
| SshDestination.NeverAnOption | desktop/remote_hosts.go:152-203 | neither an accepted destination nor its host starts with a dash |
| SshDestination.OctetIff | desktop/remote_hosts.go:167-203 | a dotted-quad field is a number below 256 as it is printed |
| RemoteHostStore.KeyInjective | desktop/remote_hosts.go:492-501 | valid entries share a connection key only if mode and every connection field agree |
| RemoteHostStore.RemoteHostStore.Check | desktop/remote_hosts.go:364-389 | the loop accepts exactly the lists of valid entries with distinct IDs and connections, and otherwise names the first entry that offends and why |
| RemoteHostStore.RemoteHostStore.Load | desktop/remote_hosts.go:327-389 | a missing file is empty, a version 1 document is upgraded, anything else that fails a check is refused |
| RemoteHostStore.LoadedIs | desktop/remote_hosts.go:327-389 | a version 1 document loads as the same entries in config mode, a version 2 document as it is, and either only if the result is well-formed |
| RemoteHostStore.RemoteHostStore.Save | desktop/remote_hosts.go:391-425 | a save succeeds exactly for a well-formed list the disk accepts, writing it sorted by ID; a refused one leaves the file and says why |
| RemoteHostStore.RemoteHostStore.Upsert | desktop/remote_hosts.go:232-254 | sets one key of the map, refused exactly for an invalid entry, an unloadable file, a duplicate connection, a full store or the disk, leaving the file as it was |
| RemoteHostStore.RemoteHostStore.Delete | desktop/remote_hosts.go:256-276 | removes one key of the map, writing only when it was there |
| RemoteHostStore.RemoteHostStore.Get | desktop/remote_hosts.go:309-325 | looks one key up |
| RemoteHostStore.RemoteHostStore.Update | desktop/remote_hosts.go:286-307 | changes a resume lease or layout reference of one entry and nothing else |
| RemoteHostStore.SortedDocument | desktop/remote_hosts.go:391-425 | a written document loads as the same hosts and the same map |
| HeartbeatCalendar.ScanDay | desktop/heartbeat.go:686-701 | the inner loop replaces an earlier best by the day's candidate exactly when the day is listed and the candidate is not after now |
| HeartbeatCalendar.PreviousHeartbeatWeeklyAt | desktop/heartbeat.go:682-703 | the nested loops find the first listed day back whose instant is not after now |
| HeartbeatCalendar.YearStart | desktop/heartbeat.go:789-791 | the month table adds up to the Gregorian calendar: every 1 January is where the leap-year count puts it |
| HeartbeatCalendar.CandidateIsNearest | desktop/heartbeat.go:793-805 | a month's candidate is the day of that number if the month has it, else its nearest day |
| HeartbeatCalendar.EvenWeekIff | desktop/heartbeat.go:807-820 | a week counts for a biweekly task exactly when its Monday is a whole number of fortnights from the anchor's |
| HeartbeatCalendar.DailyIsLatest | desktop/heartbeat.go:662-667 | a daily task always has a last occurrence, and the lookup returns the greatest one not after now |
| HeartbeatCalendar.YearlyIsLatest | desktop/heartbeat.go:714-721 | so does a yearly task, leap days clamped |
| HeartbeatCalendar.MonthBeforeIs | desktop/heartbeat.go:708 | AddDate(0, -1, 0) reaches the previous month exactly when it has now's day, and otherwise stays in this one |
| HeartbeatCalendar.MonthlyIsLatestIff | desktop/heartbeat.go:705-712 | a monthly lookup always returns an instant; it is the greatest occurrence not after now exactly when this month's is past or now's day exists in the previous month; otherwise it is still to come |
| HeartbeatCalendar.MarchSkipsFebruary | desktop/heartbeat.go:705-712 | on 30 March of any year a task for the 31st skips the end of February |
| HeartbeatCalendar.WeeklyIsLatest | desktop/heartbeat.go:682-703 | whenever a weekly or biweekly lookup returns an instant it is the greatest occurrence not after now |
| HeartbeatCalendar.WeeklyFindsNothingIff | desktop/heartbeat.go:668-672 | a lookup returns none exactly when every listed day is today's weekday, its time is later than now and (biweekly) this week is even |
| HeartbeatCalendar.MorningFindsNothing | desktop/heartbeat.go:668-672 | on any day at 08:00 a weekly or biweekly task for that weekday at 09:00 is given nothing, although it occurred one or two weeks ago |
| HeartbeatRuns.WindowsSplitTheDay | desktop/heartbeat.go:558-587 | a window and the one with exchanged bounds split the day, with one bound or two and across midnight; the start is inside, the end outside; without a bound or with equal ones it is the whole day |
| HeartbeatRuns.OnlyLaterTodayFallsThrough | desktop/heartbeat.go:515-553 | a task whose only days are later today is decided by its plain interval |
| HeartbeatRuns.LookupIsLatestIff | desktop/heartbeat.go:654-680 | the lookup gives the latest occurrence exactly for daily and yearly tasks, a monthly one past its instant or in a month whose day the previous month has, and a weekly one not only later today |
| HeartbeatRuns.CalendarDueIff | desktop/heartbeat.go:515-523 | except in the cases where the lookup fails, a calendar task is due exactly when some occurrence not after now lies at or after its creation and after its last run |
| HeartbeatRuns.PlainDueIff | desktop/heartbeat.go:525-553 | a task without a calendar rule is due exactly in its window, when its interval has passed since its last run, else its creation |
| HeartbeatRuns.RunJob | desktop/heartbeat.go:243-386 | run alone, executeTask terminates: its recursion happens at most once, after a topic in flight has been cleared |
| HeartbeatRuns.AdvanceLogs | desktop/heartbeat.go:319-372 | a section logs at most one event; a submit is made only past a controller found idle, with nothing in flight, and if it is accepted |
| HeartbeatRuns.SectionOutcome | desktop/heartbeat.go:271-386 | a job that cannot make or open its topic counts as a run, one refused at the controller leaves the task as it was, a submit stamps it and backs a missing creation time, and of the topics in flight only its own changes |
| HeartbeatRuns.InFlightBlocks | desktop/heartbeat.go:253-260 | while the previous fresh conversation is not idle, a due run creates no topic and submits nothing |
| HeartbeatRuns.MergeKeepsEdits | desktop/heartbeat.go:462-487 | a merge keeps the file's list and every field the engine does not own, and takes topic, last run and a missing creation time of the tasks that ran |
| HeartbeatRuns.HeartbeatEngine.ExecuteTask | desktop/heartbeat.go:243-386 | the imperative run with its recursion is the job section by section |
| HeartbeatRuns.HeartbeatEngine.PrunePendingTopicsLocked | desktop/heartbeat.go:420-435 | only topics of listed fresh-conversation tasks stay |
| HeartbeatRuns.HeartbeatEngine.MergeRunUpdatesLocked | desktop/heartbeat.go:458-493 | a merge rebases run state onto the file's list, or memory's when there is none |
| HeartbeatRuns.RanAllRuns | desktop/heartbeat.go:192-215 | a tick runs and reports exactly the enabled tasks of its snapshot that are due at its instant, a manual run exactly those it was given |
| HeartbeatRuns.HeartbeatEngine.Tick | desktop/heartbeat.go:192-215 | a tick with no other caller in between is the steps the histories interleave: adopt, every enabled due task of the snapshot in order, merge |
| HeartbeatRuns.HeartbeatEngine.TriggerNow | desktop/heartbeat.go:438-456 | a manual run with no other caller in between is the first task with the ID, then the merge |
| HeartbeatHistory.EditIsAdopted | desktop/heartbeat.go:117-126 | an edit of the file is what the next adoption installs, unless the file was removed |
| HeartbeatHistory.ListIsInstalled | desktop/heartbeat.go:398-418 | a reload installs the file's list and a replacement the one given, on file too unless its save failed, and only topics of its fresh-conversation tasks stay |
| HeartbeatHistory.MergeKnowsIff | desktop/heartbeat.go:476-486 | an entry that knew the submits merged so far knows them after a merge exactly when the update has no last run, or one not before any submit merged by then |
| HeartbeatHistory.ForwardMergeKnows | desktop/heartbeat.go:476-486 | an update whose last run is not before the entry it changes is enough for that |
| HeartbeatHistory.HistoryKeepsInv | desktop/heartbeat.go:192-215 | over every interleaving of ticks, manual runs, edits and installed lists that know the merged submits, log, lists and runs agree |
| HeartbeatHistory.SubmitsFollowMergedOnes | desktop/heartbeat.go:515-541 | a tick submit serves an occurrence after, or starts the interval after, every submit of its task, manual ones too, merged before the tick began |
| HeartbeatOrder.TicksFollowEachOther | desktop/heartbeat.go:175-187 | of two tick submits of a task the earlier was merged before the later one began, whatever manual runs overlap them |
| HeartbeatOrder.CalendarRunsServeLaterOccurrences | desktop/heartbeat.go:515-523 | two calendar submits of a task serve strictly increasing occurrences, over all interleavings in which every merge meets that condition |
| HeartbeatOrder.IntervalRunsAreApart | desktop/heartbeat.go:525-541 | a tick submit under the plain interval comes at least that interval after any earlier tick submit of the task |
| HeartbeatOrder.QuietForwardIsSound | desktop/heartbeat.go:458-493 | with no edits and no failed save, merges that move no last run back are enough, however runs overlap |
| HeartbeatOrder.FileStaysCurrent | desktop/heartbeat.go:458-493 | with runs one after another, no edits and no failed save, the file holds the list in memory and the updates know the log |
| HeartbeatOrder.QuietSequentialIsSound | desktop/heartbeat.go:458-493 | so such a history needs no condition on its merges |
| HeartbeatRepeats.NoRepeatIff | desktop/heartbeat.go:458-493 | from a state with no open run, no continuation without edits, failed saves or merges that move back serves again an occurrence already served, exactly when no enabled entry of the file is due, now or later, for one |
| HeartbeatRepeats.RepeatRun | desktop/heartbeat.go:192-215 | from any state with no open run and such an entry, reloading, waiting and one tick serve the occurrence again |
| HeartbeatRepeats.OverlapServesTwice | desktop/heartbeat.go:438-486 | a manual run that began before a tick and finds the controller busy after it writes the old last run back: without an edit or a failed save an occurrence is served twice |
| HeartbeatRepeats.FailedSaveLeaves | desktop/heartbeat.go:488-493 | one failed save leaves a sound state that fails the condition above |
| HeartbeatRepeats.FailedSaveServesTwice | desktop/heartbeat.go:488-493 | and the history goes on to serve the occurrence again |
| HeartbeatTopics.AdvanceKeepsBalance | desktop/heartbeat.go:271-296 | every section keeps topics created equal to submits plus the one that waits or is being made |
| HeartbeatTopics.TopicsFollowSubmits | desktop/heartbeat.go:243-386 | while a fresh-conversation task stays listed and runs come one after another, topics created never exceed its submits by more than one, whoever acts between the sections |

## Left out

- DriveInput: models the read and the automatic release as one atomic step; the gap between them is stated by LapseKeepsInverseIff.
- CalendarRunsServeLaterOccurrences: installed lists and merges must keep knowing the submits, as stated above; the source installs and merges any list.
- IntervalRunsAreApart: needs the same; a manual submit the tick could not yet know is not kept apart from.
- TopicsFollowSubmits: runs come one after another; overlapping runs of one task can each make a topic and keep one.
- ExecuteTask: leaves out the approval mode and the bot forwarder it sets before the submit.
- Tick: describes a tick with no other caller in between; the histories let every other caller in between its sections.
- TriggerNow: describes a manual run with no other caller in between, like Tick.
- EnsureServer: the forward table's Replace is atomic, the bootstrap is a parameter, and another caller removes the forward at two points only, before it is looked at and after it is bound.
- CheckpointRows: coverage, gaps, prompts, times and conversation boundaries of a row are copied fields and not modelled.
- PrintParse: assumes that the Go library's IPv6 text parses to itself.
- HistoryPage: gives the raw window; planner displays and rendering are not modelled.
- Text that is not well-formed UTF-8: sequences of characters cannot hold it, so the checks that refuse it are not modelled.
- TrimPartialSuffix: utf8.Valid and utf8.FullRune are written out after section 3 of RFC 3629 rather than taken from the Go library.
- FromComposites: PNG encoding is not modelled; the result is the pixel buffer.
- Fairness of the locks: a waiting writer may be overtaken by the next writer, and nothing is claimed about how long a thread waits.
- App.mu, the innermost lock of the documented order, and the leaf locks other than sessionRemovalMu and reconcileMu.
- The alias reservation of the session rebind: only its lock order is modelled.
- Controllers, plugin hosts and session leases: a turn is a running flag set by a submit, which a controller may refuse.
- Pointers to connection generations are insertion numbers, and 64-bit sequence counters do not wrap.
- Approve, Answer, observe and the delivery queue of the bot bridge: they look a pending prompt up and forward it.
- The parsing of schedule, clock, weekday and interval text: schedules are what the parser lets through, with a day of the month of any value.
- Daylight-saving shifts: a fixed offset, with times counted on the local clock.
- The variant of history paging that pages rendered messages.
- Cursor JSON and base64, the tasks file's and host store's JSON, and all file, SSH and network access: values and parameters.
- Windows, dialogs, menus, settings views, metrics, crash reports and the other user-interface code: members without comparable invariants.
