# Verification of the pons runtime

A Dafny model of the parts of pons whose correctness cannot be settled by
examples, and proofs about them:

- **The durable store** (`Events`, `Store*`, `Replay`, `Rebuild*`, `SqliteStore`).
  Every operation appends events and updates the `submissions`, `runs` and
  `tool_calls` rows in one transaction; on open, the rows are thrown away and
  rebuilt from the log, conversation by conversation. The main result is that
  reopening any reachable store changes nothing.
- **Its projections** (`Projection*`, `Snapshots`). The server's snapshot fold and
  the web client's incremental fold agree, wherever a log is split, and the
  snapshot shows exactly the rows of the store.
- **The manager** (`Manager*`, `LiveConversation`). A state machine whose steps are
  the critical sections of the scheduler, the runs, submitters, subscribers,
  restores and slow readers over that store, in every interleaving.
- **Workspace checkpoints** (`Checkpoint*`): retention with a byte budget and a
  restore-source closure, what that keeps in numbers, and the history that it
  prunes.
- **E2B placement** (`Placement*`): a sandbox's life between runs, with a crash
  possible between any two calls to the store or the provider.
- **Tool-call preflight, permissions and the turn loop** (`Preflight*`,
  `Permissions`, `Turn*`), with hooks, brains, sinks and handlers as arbitrary
  oracles: a loop that keeps the rules of a monitor (`TurnRules`), and what
  every trace that keeps them has in common. The main result is that a handler
  only ever runs the very input that was cleared or approved.
- **Algorithms**: line diffs and hunks (`Unidiff`, `Hunk*`, `Patches`,
  `OpenEnds`), the output ring buffer and its truncation (`OutputTail`,
  `OutputFormat`), plugin ordering (`PluginOrder`), the pending-call table
  (`RpcTable`), three-way directory apply (`DirSync`), and edit blocks
  (`TextLines`, `Edit*`).

Code that updates state in place is modelled by classes and loops
(`SqliteStore.Database`, `LiveConversation.Conversation`,
`CheckpointHistory.Workspace`, `TurnLoop.Core`, `OutputTail.Buffer`,
`PluginOrder.Resolver`, `RpcTable.Host`, `DirSync.Root`, and the loops of the
diff, retention, projection and edit code), each proved against a specification
function or predicate about which the lemmas speak. Protocols with several
threads are state machines with one step per critical section or outside call.

A large predicate that most proofs only pass on is kept folded by a one-point
quantifier, `forall x | x == s :: P(x)`, or by `true == (...)`; a proof that needs
its content opens it with `assert P(s)`.

Conventions: ids are natural numbers handed out fresh, 0 being "none"; time is an
integer; a SQL transaction is one atomic step and its failure changes nothing;
SHA-256 is injective; JSON payloads are datatypes, and where the source checks
that a payload is well formed, a predicate or an oracle says whether it is.

## Where the code and its documentation differ

The model follows the code. Each point is a proved statement.

- `plugins/edit` says that an exact match must be unique. `strings.Count` counts
  without overlap, so a search text that overlaps itself can match twice and still
  be replaced. It is unique in every file exactly when the text does not overlap
  itself (`EditApply.ExactMatchIsUnique`).
- `internal/unidiff` promises diffs in the standard format. A context line is
  never followed by `\ No newline at end of file`, so when both files end in the
  same line without a newline and that line is shown, the format reads a newline
  that is not there and the hunk does not apply (`Patches.RefusedHunk`).
  `Patches.Unified` says exactly when, and `OpenEnds.ReadFromFiles` what can be
  told from the files alone.
- The edit package says that line endings are restored and that a payload cannot
  contain a bare `=======` line. A changed file with mixed endings becomes all
  CR LF (`EditFile.EndingsAreRestored`), and a replacement may contain that line
  (`EditPatch.ParseInvertsFormat`). A CR LF in a replacement turns a file with
  plain newlines into a CR LF file (`EditFile.WrittenReadsBack`).
- `cleanExpired` acts on a list read earlier. An idle sandbox it deletes holds
  nothing unsaved even so, but an entry that was idle when listed can name a
  sandbox that a later run took over and reserved for recovery.
  `PlacementSafety.JanitorDeletesHeld` says exactly when a deletion hits such a
  sandbox; `PlacementSafety.StaleListLosesEdits` is a run in which edits are
  lost; and reading the record again would be enough (`PlacementSafety.FreshReadIsSafe`).
- `replayIndexEvent` asks every run start for its admission. A start whose run id
  is empty needs none (`RebuildSoundness.UnadmittedStart`), and only such a one
  (`RebuildSoundness.StartNeedsAdmission`).
- `FinishRun` and `endRun` do not look at the run's status. A second terminal
  call leaves a log that the next open refuses (`StoreProperties.SecondEndFails`),
  and a turn committed after its run ended leaves a tool call requested for ever
  (`StoreProperties.LateTurnUnsettles`). The manager makes exactly one terminal
  call per claim (`ManagerRuns.OneTerminalCall`).

## Model

| member | source | states |
|---|---|---|
| RebuildTheorems.ReopenedStoreIsUnchanged | runtime/sqlite/rebuild.go:17-192 | for every interleaving of operations over any conversations, replaying the log listed conversation by conversation succeeds and rebuilds exactly the submissions, runs, tool calls and next cursors that the transactions left |
| RebuildTheorems.RebuildIsIdentity | runtime/sqlite/rebuild.go:17-82 | rebuilding a valid, rebuildable store from any listing of its log is the identity |
| RebuildTheorems.ListingReplays | runtime/sqlite/rebuild.go:33-75 | replaying a listing consumes every admitted run and ends in the store's own tables |
| RebuildSoundness.RebuildIsSound | runtime/sqlite/rebuild.go:17-192 | from any rows that a rebuild accepts, damaged logs included, it installs tables in which keys, running submissions, runs and calls are unique, each submission agrees with its run, and each row comes from entries of the log |
| RebuildSoundness.StartNeedsAdmission | runtime/sqlite/rebuild.go:114-136 | a run start that fits otherwise is replayed if and only if its own admission waits for it, or its run id is empty and none does |
| RebuildSoundness.UnadmittedStart | runtime/sqlite/rebuild.go:114-136 | a log that rebuilds although its run was never admitted |
| RebuildTheorems.PartReplays | runtime/sqlite/rebuild.go:33-75 | every prefix of a listing replays on each conversation, and never goes past what the transactions left |
| RebuildTheorems.SharesDetermine | runtime/sqlite/rebuild.go:33-75 | tables that hold each conversation's share of the rows, and nothing admitted, are the store's tables |
| Rebuild.Frame | runtime/sqlite/rebuild.go:86-192 | replaying one entry touches only its conversation's share of the tables, and does there what it does on that share alone |
| Rebuild.FrameAll | runtime/sqlite/rebuild.go:86-192 | the same for a whole sequence of one conversation's entries: replays of different conversations commute |
| Rebuild.AdvanceKeeps | runtime/sqlite/rebuild.go:86-192 | whatever one transaction advances leaves every conversation rebuildable |
| StoreTheorems.RunOpsValid | runtime/sqlite/store.go:634-1296 | every operation, in any order, keeps the store's invariant |
| StoreTheorems.ApplyEffect | runtime/sqlite/store.go:634-1296 | one operation extends at most one conversation's log, by entries whose replay does to the rows what the transaction did |
| StoreProperties.Exclusion | runtime/sqlite/store.go:817-936 | in every reachable state at most one submission runs per conversation and per workspace lock, none in a reserved workspace, and no failed or stopped run has a requested call |
| StoreProperties.SecondEndFails | runtime/sqlite/store.go:1092-1176 | a second terminal entry for a run makes the rebuild fail |
| StoreProperties.FinishRunRebuilds | runtime/sqlite/store.go:1092-1128 | after FinishRun the store rebuilds to itself if and only if the run was running |
| StoreProperties.EndRunRebuilds | runtime/sqlite/store.go:1140-1176 | after FailRun or StopRun the store rebuilds to itself if and only if the run was running |
| StoreProperties.LateTurnUnsettles | runtime/sqlite/store.go:938-997 | committing a turn leaves no failed or stopped run with a requested call if and only if the run itself has not failed or stopped |
| StoreProgress.ClaimTakesEarliest | runtime/sqlite/store.go:817-936 | in a reachable store ClaimRunnable never fails, returns nothing exactly when nothing is eligible, and otherwise takes the least (accepted_at, id) eligible submission with the parts accepted for it |
| StoreCommits.ClaimTakesFirst | runtime/sqlite/store.go:817-936 | from the rows alone: nothing is claimed exactly when every queued submission is kept back by a running one of its conversation or lock, or by a reservation; else the one accepted first, by id among equals |
| StoreCommits.AcceptCommits | runtime/sqlite/store.go:760-806 | an input commits if and only if it has a visible key and adapter, some text and its provenance, and either its key is known or the conversation has its agent and the id is new |
| StoreCommits.CommitCommits | runtime/sqlite/store.go:938-997 | a turn commits if and only if every part can be stored, one is a tool call, no call is named twice or by an earlier turn of the run, and the id is new |
| StoreCommits.ToolCommits | runtime/sqlite/store.go:999-1071 | an outcome commits if and only if its call is requested and the id is new; a denial also needs a result that is not ok |
| StoreCommits.AnswerCommits | runtime/sqlite/store.go:1092-1128 | a final answer commits if and only if its id is new |
| StoreCommits.NoteCommits | runtime/sqlite/store.go:672-726 | progress commits if and only if its run is running and it says something; an agent event if and only if its run is running |
| StoreProgress.NextExists | runtime/sqlite/store.go:817-936 | something is next exactly when something is eligible |
| StoreProgress.ClaimOneSucceeds | runtime/sqlite/store.go:817-936 | claiming an eligible submission meets no constraint |
| StoreProgress.InputIsStored | runtime/sqlite/store.go:1550-1565 | every submission row has its accepted input in the log, and loading finds it |
| StoreProgress.EndRunSucceeds | runtime/sqlite/store.go:1140-1222 | ending a claimed run with fresh ids always commits, in whatever state its tool calls are |
| StoreSteps.AcceptStep | runtime/sqlite/store.go:760-806 | an accepted input adds one queued submission and the one entry that replays to it |
| StoreSteps.CommitTurnStep | runtime/sqlite/store.go:938-997 | a committed turn adds its tool calls to its run only, as its entry does on replay |
| StoreSteps.FinishToolStep | runtime/sqlite/store.go:1030-1071 | a tool outcome resolves the first requested row of that call and nothing else |
| StoreSteps.FinishRunCommits | runtime/sqlite/store.go:1092-1128 | FinishRun completes the run and its submission, as its two entries do on replay |
| StoreSteps.InterruptStep | runtime/sqlite/store.go:1178-1222 | interrupting the requested calls one by one leaves none requested, with one entry for each |
| StoreSteps.EndRunStep | runtime/sqlite/store.go:1140-1176 | FailRun and StopRun end the run and its submission and leave no call requested |
| StoreSteps.NoteStep | runtime/sqlite/store.go:672-726 | progress and agent events change the log only |
| StoreMeaning.AcceptMeans | runtime/sqlite/store.go:760-806 | on the tables and the log: a new input is one queued row with exactly its columns and one entry; a known key names the row that has it and changes nothing |
| StoreMeaning.ClaimMeans | runtime/sqlite/store.go:817-936 | a claim adds one running run of the submission, marks the submission running, and appends admission and start in this order |
| StoreMeaning.CommitMeans | runtime/sqlite/store.go:938-997 | the turn is on record part by part, absent arguments as {}, not final, with one requested row per tool call in order |
| StoreMeaning.CompletedMeans | runtime/sqlite/store.go:999-1071 | the first requested row of the call, and no other, succeeds if the result is ok and is failed otherwise; the entry has that status, that call and that result |
| StoreMeaning.DeniedMeans | runtime/sqlite/store.go:1007-1071 | the same for a denial, whose result is never ok |
| StoreMeaning.InterruptMeans | runtime/sqlite/store.go:1178-1222 | every requested call of the run, and no other call, becomes interrupted, each with an entry whose result is not ok |
| StoreMeaning.EndMeans | runtime/sqlite/store.go:1130-1176 | FailRun leaves run and submission failed with the message, StopRun stopped with its own; the last entry is of that kind and says the same; no other row changes |
| StoreMeaning.FinishMeans | runtime/sqlite/store.go:1092-1128 | run and submission are completed without an error, and the answer is the final message |
| StoreMeaning.NoteMeans | runtime/sqlite/store.go:672-726 | progress and agent events append exactly what they say, of a running run, and change no row |
| SqliteStore.Database.Accept | runtime/sqlite/store.go:760-806 | commits exactly the specified accept, or returns its error and changes nothing; a repeated key returns the stored event |
| SqliteStore.Database.ClaimRunnable | runtime/sqlite/store.go:817-936 | the loop over candidates commits the claim of the least eligible submission, or nothing |
| SqliteStore.Database.CommitAssistantTurn | runtime/sqlite/store.go:938-997 | normalises the parts, inserts the requested calls and appends the turn, all or nothing |
| SqliteStore.Database.InsertCalls | runtime/sqlite/store.go:938-997 | the loop inserts the calls in order and stops at the first conflict |
| SqliteStore.Database.ToolCompleted | runtime/sqlite/store.go:999-1005 | the call's first requested row and the entry become succeeded if the result is ok and failed otherwise, with exactly that result, or nothing changes |
| SqliteStore.Database.ToolDenied | runtime/sqlite/store.go:1007-1012 | the call's first requested row and the entry become denied; a successful result cannot be a denial |
| SqliteStore.Database.FinishRun | runtime/sqlite/store.go:1092-1128 | commits answer, completion and rows together |
| SqliteStore.Database.InterruptRequestedTools | runtime/sqlite/store.go:1178-1222 | the loop over the requested rows is the specified fold |
| SqliteStore.Database.EndRun | runtime/sqlite/store.go:1130-1176 | commits interruptions and the end together, or changes nothing |
| StoreReservations.ReservesWhenIdle | runtime/sqlite/store.go:1224-1256 | a workspace can be reserved if and only if no run of it is running and nobody holds it; releasing it restores the store |
| StoreReservations.HeldUntilReleased | runtime/sqlite/store.go:1224-1256 | whatever operations follow, until it is released nothing of a reserved workspace runs or can be claimed, and it cannot be reserved again |
| StoreReservations.ReleaseOpens | runtime/sqlite/store.go:1253-1256 | a release makes eligible exactly what waited for that reservation alone |
| SqliteStore.Database.RecoverRunning | runtime/sqlite/store.go:1258-1296 | drops the reservations, fails every running run in order and no other; with fresh ids it succeeds and leaves nothing running and no call requested |
| SqliteStore.Database.RebuildIndexes | runtime/sqlite/rebuild.go:17-82 | the row loop over the log installs the rebuilt tables, or fails and leaves the old ones |
| Projection.ProjectView | runtime/projection.go:10-111 | the loop with its two lookup maps computes the projection of the events, or its error |
| Projection.ProjectRunEvent | runtime/projection.go:82-105 | the run-event arm moves the submission its map finds and keeps the maps exact |
| ProjectionContent.SnapshotShowsEvents | runtime/projection.go:10-111 | the snapshot of any log shows exactly what its events say: each message with its event's role, parts, final flag and run; each tool call with the kind and arguments of the part that requested it and the status, result and time of its outcome, if there is one; each submission with the status and error of its last run event; the active run, the progress entries and the last cursor |
| ProjectionContent.ClientShowsEvents | web/src/projection.ts:24-115 | and so does the view that a client builds from a public log, event by event |
| ProjectionTheorems.FoldsAgree | web/src/projection.ts:24-115 | folding applyEvent over a public log from nothing gives the view of ProjectView |
| ProjectionTheorems.SplitAnywhere | web/src/projection.ts:24-115 | for a public log split anywhere, folding the tail over the snapshot of the head gives the snapshot of the whole |
| ProjectionTheorems.StepAgrees | web/src/projection.ts:24-115 | on an event whose messages and submissions are new to the view, the two folds take the same step |
| ProjectionTheorems.PrefixIsPublic | runtime/projection.go:10-111 | a prefix of a public log is one |
| ProjectionTheorems.CursorIsLast | runtime/projection.go:10-20 | the snapshot's cursor is that of its last event |
| ProjectionTheorems.CursorAside | web/src/projection.ts:24-40 | the cursor a fold starts from influences nothing but the cursor |
| Snapshots.ReachableLogIsPublic | runtime/sqlite/store.go:1323-1361 | the public log of every reachable store has a snapshot |
| Snapshots.SnapshotShowsRows | runtime/sqlite/store.go:1323-1352 | the snapshot shows exactly the submissions of the conversation with their rows' status, its runs' tool rows, and its running run |
| Snapshots.LogShown | runtime/projection.go:10-111 | a well-formed log that the rebuild accepts projects, to the rows that the rebuild computes |
| Snapshots.TailAfter | runtime/sqlite/store.go:1298-1308 | the events past the cursor of a log are the public events of its tail |
| Snapshots.ClientCatchesUp | web/src/projection.ts:24-115 | a client that applies what came after its snapshot's cursor holds the new snapshot |
| ManagerRuns.NoEventIsMissed | runtime/subscriptions.go:54-112 | in every run of the manager, what a subscriber got is a gap-free, ascending prefix of the public log past its cursor, and all of it while it is registered and nothing is owed by a thread between commit and broadcast |
| ManagerRuns.ClientSeesAPrefix | runtime/subscriptions.go:54-112 | a client that applies the durable events it has received to its snapshot holds the projection of a prefix of the log |
| ManagerRuns.NoWakeupIsLost | runtime/scheduler.go:10-61 | whenever the scheduler waits with a free slot and an eligible submission, a token is there or some thread is about to notify |
| ManagerRuns.SlotsAreConserved | runtime/scheduler.go:227-244 | the count of active slots is the slots held by dispatch and by works, and at most MaxConcurrent |
| ManagerRuns.RegistryIsNeverOverwritten | runtime/scheduler.go:45-50 | a claim is registered for a conversation that has no live entry |
| ManagerRuns.OneTerminalCall | runtime/scheduler.go:85-112 | a run whose work has not made its terminal call is still running in the store |
| ManagerRuns.ManagedStoreRebuilds | runtime/sqlite/rebuild.go:17-192 | the store under every run of the manager reopens unchanged |
| ManagerRuns.StepDelivery | runtime/subscriptions.go:93-112 | every step keeps each subscriber in step with its log |
| ManagerInvariant.StepThreads | runtime/scheduler.go:29-115 | every step keeps who may run, who holds which mutex, and registry, slots and store in agreement |
| ManagerInvariant.RegisterIsFresh | runtime/scheduler.go:45-50 | the store's exclusion makes the registry slot of a claimed conversation free |
| ManagerInvariant.ReturnsItsOwn | runtime/scheduler.go:63-83 | a returning work deletes its own registry entry |
| ManagerInvariant.TerminateFindsRunning | runtime/scheduler.go:85-112 | the terminal call of a work finds its run running |
| ManagerWakeups.StepSlots | runtime/scheduler.go:227-244 | every step keeps the slot count |
| ManagerWakeups.StepWake | runtime/scheduler.go:237-253 | every step keeps the wakeup property: each one that makes a claim possible is followed by a notify |
| ManagerDelivery.OfferKeeps | runtime/subscriptions.go:93-112 | broadcasting one event leaves a subscriber in step with what is still owed, or dropped with a prefix |
| ManagerDelivery.GrowKeeps | runtime/scheduler.go:144-225 | committing events makes them owed to every subscriber |
| ManagerDelivery.AttachKeeps | runtime/subscriptions.go:54-91 | a new subscriber's channel starts in step with the log it was read from |
| ManagerOffers.OfferMeans | runtime/subscriptions.go:93-112 | over every run: an event that is offered goes to the end of the channel, live events included; it is skipped exactly when it is not past the subscriber's starting cursor; a full channel costs the subscriber its place but nothing it has |
| ManagerOffers.DroppedWhenFull | runtime/subscriptions.go:93-112 | over every run: a subscriber loses its place only by leaving or when an event finds its channel full |
| ManagerOffers.AttachMeans | runtime/subscriptions.go:54-91 | a new channel holds exactly the public log past the cursor, and has room for 64 more |
| ManagerOffers.SubmitMeans | runtime/manager.go:225-262 | an input is stored exactly when it is for this manager's agent and revision, or names none, and the store accepts it with those filled in |
| ManagerStore.EmitKeeps | runtime/scheduler.go:144-225 | a runner event of a running run publishes what it appends, and makes no new submission eligible |
| ManagerStore.TerminalKeeps | runtime/scheduler.go:85-112 | the terminal transaction of a running run always finds it running, and publishes what it appends |
| ManagerEndings.RunEndsAsAsked | runtime/scheduler.go:63-112 | over every run of the manager: the run is completed if and only if the runner answered; stopped if and only if it erred and a stop fell between its registration and the runner's return; else failed with the runner's message; the last event published is of the same kind |
| ManagerEndings.EmitsItsOwn | runtime/scheduler.go:144-225 | what a runner emits is the store operation of that kind: one entry in the log of the run's conversation, which subscribers are handed unless it is private |
| ManagerStore.ClaimKeeps | runtime/scheduler.go:29-61 | a claim publishes its events, and no other run of that conversation is running |
| ManagerStore.ClaimFindsAll | runtime/scheduler.go:29-61 | a claim over a valid store never fails, and finds nothing exactly when nothing is eligible |
| LiveConversation.Conversation.Subscribe | runtime/subscriptions.go:54-91 | adds one subscriber, under an unused id, with the backlog in its channel |
| LiveConversation.Conversation.Send | runtime/subscriptions.go:93-112 | offers one event to every open subscriber |
| LiveConversation.Conversation.BroadcastLocked | runtime/subscriptions.go:93-112 | the loop offers every event, in order, to every subscriber |
| LiveConversation.SendDelivers | runtime/subscriptions.go:93-112 | broadcasting what is owed keeps a subscriber in step, event by event |
| LiveConversation.SendAgain | runtime/subscriptions.go:93-112 | events at or below a subscriber's cursor change nothing |
| CheckpointTheorems.KeptArchivesFit | environment/checkpoints.go:72-160 | the kept archives total at most max(1 GiB, four times the current size), unless only protected ones remain |
| CheckpointBudget.KeptBytes | environment/checkpoints.go:117-160 | the archives that are kept total at most 1,073,741,824 bytes, or at most four times the current one, or all of them are of the current entry or a base |
| CheckpointBudget.DroppedWhenOver | environment/checkpoints.go:117-160 | whenever the budget drops an archive, what is kept exceeds both bounds with the last one dropped, and every other one dropped was used less recently |
| CheckpointBudget.WithinBudgetKeepsAll | environment/checkpoints.go:117-160 | when the archives of the ten newest entries, of the newest of each of the last fourteen days and of the bases fit either bound, none of these entries expires |
| CheckpointBudget.OldestGoFirst | environment/checkpoints.go:117-160 | nothing of the current entry or a base is dropped, and what is dropped was used before whatever else is kept |
| CheckpointBudget.KeptExactly | environment/checkpoints.go:72-112 | an entry is kept if and only if it is one of the ten newest, a base or the newest of one of the last fourteen days, and its archive was not dropped; or a kept restore came from it |
| CheckpointTheorems.ClosureAddsNoArchive | environment/checkpoints.go:96-102 | keeping restore sources keeps no further archive |
| CheckpointTheorems.SourcesClosed | environment/checkpoints.go:96-102 | the source of every kept restore is kept |
| CheckpointTheorems.CurrentAndBaseStay | environment/checkpoints.go:72-111 | the current entry and every base entry are kept |
| CheckpointTheorems.PruningAgainExpiresNothing | environment/checkpoints.go:72-160 | pruning what pruning left, at the same time, expires nothing |
| Checkpoints.ApplyByteBudget | environment/checkpoints.go:117-160 | drops unprotected archives in least-recently-used order and stops as soon as the total fits |
| Checkpoints.SortByUse | environment/checkpoints.go:143-145 | the archives in order of last use |
| Checkpoints.CollectArchives | environment/checkpoints.go:123-142 | each kept archive once, with its last use, its size and whether it is protected, and their total |
| Checkpoints.FixedRetention | environment/checkpoints.go:72-94 | the loops keep exactly the recent entries, the newest of each recent day, bases and the current one |
| Checkpoints.ExpiredCheckpoints | environment/checkpoints.go:72-111 | returns exactly the entries that fixed retention, budget and closure do not keep |
| CheckpointHistory.Workspace.Append | runtime/sqlite/store.go:333-371 | the new entry has a number never used before and every invariant of the history holds |
| CheckpointHistory.Workspace.DeleteExpired | runtime/sqlite/store.go:405-425 | deletes exactly the expired entries, or fails and deletes none |
| CheckpointHistory.Workspace.PruneArchives | environment/checkpoints.go:238-245 | removes no archive that a remaining entry points at |
| CheckpointHistory.Workspace.Prune | environment/checkpoints.go:212-245 | leaves what retention keeps and the archives it points at, or fails and changes nothing |
| CheckpointHistory.Workspace.Record | environment/checkpoints.go:170-198 | a run that changed no files records nothing, exactly when its archive is current; otherwise the entry is appended and current even after pruning, whether or not the delete failed |
| CheckpointHistory.Workspace.AppendAndPrune | environment/checkpoints.go:184-198 | the appended entry is current, and the rest is pruned unless the delete failed |
| CheckpointHistory.Workspace.RestoreWorkspace | runtime/checkpoint/history.go:48-81 | a restore records a new entry with the target's archive, still stored; it fails exactly when the history cannot be read, the target is missing, the provider fails or recording fails, and then no entry and no archive changes |
| CheckpointHistory.Workspace.PersistCheckpoint | environment/e2b/session.go:122-151 | an archive is checked, stored and only then recorded; it fails exactly when a step fails, and then no entry changes; a run that changed nothing adds no entry |
| CheckpointHistory.DeleteRows | runtime/sqlite/store.go:405-425 | deleting by number one by one leaves exactly the kept entries |
| CheckpointHistory.KeptRefs | environment/checkpoints.go:238-243 | the references handed to the archive store are exactly those of the remaining entries |
| CheckpointHistory.ExpiryKeeps | environment/checkpoints.go:212-245 | expiry keeps a recorded history: ascending numbers, sources before their restores, the current and base entries |
| PlacementSafety.IdleHoldsTheCheckpoint | environment/e2b/session.go:173-272 | in every reachable state, after a crash anywhere, a sandbox recorded idle holds exactly the current checkpoint, and no tool writes to it |
| PlacementSafety.HeldIsNeverReplaced | environment/e2b/provider.go:450-569 | no step of Start or RestoreWorkspace touches a world whose record holds an unexpired active or recovery sandbox of another |
| PlacementSafety.NothingUnsavedIsDeleted | environment/e2b/provider.go:450-569 | a recorded, unexpired sandbox that Start or RestoreWorkspace deletes holds the current checkpoint |
| PlacementSafety.JanitorDeletesHeld | environment/e2b/provider.go:593-636 | the sandbox the janitor deletes is a held one if and only if the record still names it, unexpired and not idle, but is no longer the entry that was listed; an idle one holds the current checkpoint |
| PlacementSafety.FreshReadIsSafe | environment/e2b/provider.go:593-636 | a record read again at the kill and equal to the listed entry means that nothing held is deleted |
| PlacementSafety.StaleListLosesEdits | environment/e2b/provider.go:602-636 | a reachable run, with the default timeouts, in which the janitor lists an idle entry, the next run takes the sandbox over, fails to checkpoint its edits and reserves it for recovery, and the janitor then deletes it |
| PlacementSafety.StepKeeps | environment/e2b/workspace_state.go:188-227 | every store call, provider call, crash and tick keeps the placement invariant |
| PlacementOutcomes.SessionOpensOnCurrent | environment/e2b/provider.go:68-300 | in every reachable state a session opens on the files of the current checkpoint, in a sandbox of the template and network asked for, recorded active for that run |
| PlacementOutcomes.CurrentMoves | environment/e2b/session.go:122-150 | the current checkpoint moves only to the files of a closing session, to a restore's target, or to the first checkout of a workspace that has none |
| PlacementOutcomes.IdleIsReused | environment/e2b/provider.go:504-569 | an undisturbed run that finds an idle sandbox of its template and network goes on in it, files and all |
| PlacementOutcomes.NewHoldsCheckpoint | environment/e2b/provider.go:68-300 | one that finds no recorded sandbox gets a new one that holds the current checkpoint |
| PlacementOutcomes.OldIsReplaced | environment/e2b/provider.go:504-576 | an idle sandbox of another template or network, or an expired one, is deleted and forgotten first |
| PlacementOutcomes.CloseSaves | environment/e2b/session.go:173-234 | an undisturbed close makes the session's files current and leaves the sandbox idle for the idle timeout |
| PlacementOutcomes.FailedCloseKeepsFiles | environment/e2b/session.go:173-255 | a close that cannot checkpoint leaves the checkpoint alone and the sandbox, with its files, reserved until the window that began with it ends |
| PlacementOutcomes.RestoreIsCurrent | environment/e2b/provider.go:450-502 | an undisturbed restore makes its target current and leaves no sandbox to go on in |
| Preflight.DecideToolCall | preflight.go:217-296 | the pass loop computes the specified decision, resources, effects and failed hooks |
| Preflight.RunStartHooks | preflight.go:236-271 | one pass asks the hooks in order, folds their answers and stops at an update |
| Preflight.AllowMeansCleared | preflight.go:217-296 | preflight allows a call if and only if in one of at most eight passes every start hook ran on exactly the returned arguments, none failed, asked, denied or proposed others, the projection succeeded, and any fallback was overridden by an explicit Allow |
| PreflightDenials.DenyMeans | preflight.go:217-296 | Deny if and only if, in some pass that is reached, a hook that is asked denies by answering or failing, whatever the others say; or nobody states a permission and a fallback denies; or the proposed arguments are no object; or after eight passes others are still proposed |
| PreflightDenials.ElseAsks | preflight.go:217-296 | Ask if and only if the call is neither denied in that sense nor cleared |
| PreflightDenials.ExplicitDenyHolds | permission.go:94-128 | no answer of another hook turns an explicit Deny into an Ask or an Allow |
| PreflightReasons.FirstExplainedWins | permission.go:116-128 | the merged decision is the strictest, in the words of the first hook that explained it |
| PreflightReasons.SettledSays | permission.go:96-142 | a settled call says that the projection failed, or what the strictest, first explained hook said, or some hook's fallback, each with its codes made safe |
| PreflightReasons.DenialReason | permission.go:112-142 | a denied call gives the reason of the first hook that denied it with one, if that is a safe code |
| PreflightEffects.EveryHookIsHeard | hooks.go:184-199 | whatever is decided, each context and message of an asked hook is handed on in order and in every pass, every failed hook is named, and a stop is kept if and only if one asked for it, with the first reason |
| PreflightEffects.DecidesWhatItChecked | preflight.go:217-296 | the call that is decided is the one that the last pass checked |
| PreflightEffects.ResourcesAreProjected | preflight.go:226-236 | hooks see the resources that the tool projects from exactly the arguments they check, or those of the request when it projects none |
| Preflight.PassAllows | permission.go:94-142 | the merged decision of one pass allows exactly when its input is cleared |
| Preflight.UpdateLimitDenies | preflight.go:293-296 | hooks that keep rewriting are denied at the limit |
| Preflight.DecisionsAreSafe | permission.go:63-142 | every decision is Allow, Ask or Deny with a safe reason code, and a denial always gives one |
| Preflight.StopsAdd | hooks.go:184-194 | a stop asked for by any hook that was asked is kept, with the first reason |
| Preflight.DecideKeepsStop | hooks.go:184-194 | a stop survives every later pass |
| Permissions.RequestPermission | permission.go:147-198 | Allow exactly when no hook failed or refused and a hook or else the handler allowed; else Deny, with the reason that says which of these was missing |
| Permissions.DecideCalls | preflight.go:142-176 | each call gets what its start hooks decide, or, denied often enough before the turn, a denial unasked; a stop that any of them asked for is noted |
| TurnLoop.Core.DecideTurn | preflight.go:142-176 | the calls as preflight leaves them, and whether a start hook asked to stop |
| TurnLoop.Core.SettleAsks | preflight.go:184-196 | every Ask before a stop is put to the permission hooks once, in call order, and becomes Allow exactly when approved |
| TurnLoop.Core.EmitDecisions | preflight.go:198-212 | a stop denies every call that would run; a call is allowed exactly when it may run, and every denial is counted under the proposed call |
| TurnLoop.Core.ResolveCalls | preflight.go:183-213 | when it succeeds exactly the calls run that may, unless something stopped the run, and the denials are counted |
| Permissions.DeniedForGood | preflight.go:142-213 | a call denied RepeatedDenialLimit times never runs again, whatever is denied or allowed meanwhile |
| TurnLoop.Core.Run | core.go:380-692 | with start hooks, every handler that starts has nothing asking to stop before it and runs an input that was cleared or approved; every opened turn is closed once and OnAgentEnd runs once plus once per honoured Continue, whatever fails; without an error each recorded call was run and ended, or denied, and OnAgentEnd was told how the loop ended; it reports an error only if something outside failed |
| TurnLoop.Core.Loop | core.go:444-691 | turns run one after another up to MaxTurns, and exhaustion is reported only after the last |
| TurnLoop.Core.Turn | core.go:444-685 | only a failure leaves recorded calls unended; the next turn finds every denial counted, nothing asking to stop, and a finish only after an honoured Continue |
| TurnLoop.Core.Consult | core.go:445-512 | a turn opens, the brain is asked once, and its answer is the one that goes on |
| TurnLoop.Core.RecordTurn | core.go:513-558 | the calls are recorded as preflight left them before anything is asked, and exactly those run that may, unless something stopped the run |
| TurnLoop.Core.RunHandlers | core.go:569-590 | every allowed call's handler starts on its recorded input and returns, once, in any order |
| TurnLoop.Core.EndCalls | core.go:592-612 | each call gets its end or denied event, in call order |
| TurnLoop.Core.RunCalls | core.go:559-612 | announced, run and ended, in that order |
| TurnLoop.Core.CloseTurn | core.go:622-629 | turn_end, then OnAgentTurnEnd, once |
| TurnLoop.Core.Finish | core.go:631-658 | OnAgentEnd runs before a finish unless a hook asked to stop, and a Continue is honoured exactly with a turn left and no stop |
| TurnLoop.Core.Interpret | core.go:660-685 | the brain reads every result; the run goes on only if nothing asked to stop |
| TurnLoop.Core.CloseRun | core.go:405-430 | the deferred hooks close an open turn and an open agent, which is told that the run failed or else how the loop ended; an error is never lost |
| TurnTheorems.HandlerRunsWhatWasCleared | core.go:505-590 | a handler only ever starts on the input that preflight decided for a proposed call of that turn, which every hook cleared or which was asked about and approved, which no asked hook denied, which was denied fewer than three times before, and never after a stop |
| TurnTheorems.AskedOnRecord | core.go:547-558 | nobody is asked about a call before the turn's calls are on record with the input that is asked about, nor after a stop |
| TurnTheorems.HandlerIsLast | core.go:522-590 | with or without start hooks, a handler starts only for an allowed call, on its recorded input, after every call of the turn was decided |
| TurnTheorems.EndedTurnWasServed | core.go:460-629 | a turn that ended recorded all the calls that the brain asked for, and ran and ended or denied each |
| TurnTheorems.OncePerTurn | core.go:513-629 | a turn has one answer and one record; each call is asked about, decided, announced, run and ended at most once; ends come in call order |
| TurnTheorems.NoCallIsForgotten | core.go:592-612 | in a run without a cut turn, every recorded call was run and ended, or denied |
| TurnTheorems.ClosedRunBalances | core.go:405-417 | as many turn closings as openings, and OnAgentEnd once plus once per honoured Continue |
| Unidiff.SplitJoins | internal/unidiff/unidiff.go:42-64 | a file is its lines and its final-newline state |
| Unidiff.FillTable | internal/unidiff/unidiff.go:68-85 | the table, filled from the end in place, holds the length of the longest common subsequence of every pair of suffixes |
| Unidiff.Diff | internal/unidiff/unidiff.go:68-111 | the walk along the table yields the specified script |
| Unidiff.LcsIsLongest | internal/unidiff/unidiff.go:68-85 | no common subsequence is longer than the recurrence says |
| Unidiff.ScriptEdits | internal/unidiff/unidiff.go:86-111 | the script turns one file into the other and keeps a longest common subsequence |
| Unidiff.ScriptIsShortest | internal/unidiff/unidiff.go:86-111 | no script between the files keeps more lines |
| Unidiff.Coarse | internal/unidiff/unidiff.go:113-122 | the fallback for large files also turns one into the other |
| Hunks.FindClusters | internal/unidiff/unidiff.go:144-154 | the clusters begin and end with a change, cover every change, have no gap above twice the context inside and one above it between them |
| Hunks.ClustersCover | internal/unidiff/unidiff.go:156-162 | the hunks' ranges ascend, are disjoint and cover every change |
| HunkContext.RenderShows | internal/unidiff/unidiff.go:145-163 | every range shows `context` kept lines around its changes, or all there are up to the file's ends; changes share a range exactly when they are at most twice the context apart |
| Hunks.PrefixSums | internal/unidiff/unidiff.go:127-142 | the lines of each file before every op |
| Hunks.EmitHunk | internal/unidiff/unidiff.go:166-205 | header and lines of one hunk, with the newline marker on the last line of a file without one |
| Hunks.Render | internal/unidiff/unidiff.go:126-164 | the hunks are those of ascending, disjoint ranges that cover every change |
| Patches.HeaderPlaces | internal/unidiff/unidiff.go:166-205 | read as the unified format defines them, a hunk's start and count name its lines in both files |
| Patches.HunksApply | internal/unidiff/unidiff.go:126-196 | applying the hunks to the first file gives the second, for the standard reader as long as no open end is shown as context |
| Patches.HunksRefused | internal/unidiff/unidiff.go:182-195 | a hunk that shows an open end as context is refused by the standard reader |
| Patches.EditScript | internal/unidiff/unidiff.go:21-40 | the script used is right in both branches, and a shortest one when the table is small enough |
| Patches.Unified | internal/unidiff/unidiff.go:21-40 | for any two files, the hunks show a shortest script (any script above the size limit) with its context and nothing else; read as the format says they turn the first file into the second, final newline included, if and only if they do not show a shared open end as context; a lenient reader always gets the second file |
| OpenEnds.ReadFromFiles | internal/unidiff/unidiff.go:21-40 | from the files alone: the diff can be read if a file ends in a newline, the last lines differ or the table is too large, and is refused if an open last line is shared, the table is small enough and the common tail is within the context |
| OpenEnds.OpenEndOfFiles | internal/unidiff/unidiff.go:42-64 | the line keys share an open end exactly when both files end in the same line without a newline |
| Patches.ScriptKeepsOpenEnd | internal/unidiff/unidiff.go:86-111 | a last line without a newline that both files share is kept by the exact script, in its last op |
| Patches.OpenEndIsRefused | internal/unidiff/unidiff.go:182-195 | "x\ny" against "z\ny" shares an open end within the context |
| Patches.RefusedHunk | internal/unidiff/unidiff.go:182-195 | its one hunk is refused by the standard reader |
| OutputTail.Buffer.Write | plugins/bash/output.go:15-46 | after any writes the buffer holds the last `limit` bytes of the whole stream, with exact counts of the bytes and newlines dropped |
| OutputTail.Buffer.String | plugins/bash/output.go:48-53 | returns the last `limit` bytes of the stream |
| OutputTail.Buffer.Append | plugins/bash/output.go:17-26 | while there is room the whole stream is kept |
| OutputTail.Buffer.Grow | plugins/bash/output.go:19-23 | growing keeps the bytes |
| OutputTail.Buffer.Replace | plugins/bash/output.go:30-36 | a write of a whole buffer keeps only its end, with exact counts |
| OutputTail.Buffer.Overwrite | plugins/bash/output.go:38-45 | the oldest bytes make room for the new ones, with exact counts |
| OutputTail.OverwriteUnrolls | plugins/bash/output.go:42-44 | overwriting around the ring's end drops the oldest bytes and appends the data |
| OutputFormat.Format | plugins/bash/bash.go:200-258 | the text kept is a suffix of the stream within both limits, the one that aligning, the line limit and the byte limit define, with exact counts of what is gone |
| OutputFormat.LastLines | plugins/bash/bash.go:211-227 | the last maxLines whole lines |
| OutputFormat.OneLastLines | plugins/bash/bash.go:211-227 | there is only one text of the last whole lines |
| OutputFormat.LimitBytes | plugins/bash/bash.go:228-235 | the last bytes, from a line or rune start on, with exact counts |
| OutputFormat.LastBytesKeepsMost | plugins/bash/bash.go:228-235 | what fits stays whole; else the text begins at the first line that starts within the last bytes, and if none does at the first rune |
| OutputFormat.AlignIsSuffix | plugins/bash/bash.go:281-289 | drops exactly up to and with the first newline, or exactly the bytes before the first rune start |
| PluginOrder.DecodePluginConfigs | plugins/hostconfig/plugin_config.go:142-213 | succeeds exactly when entries are readable, enabled capabilities unique, every reachable requirement provided and the graph without a cycle; the output is a permutation with providers first, and the config order when that works |
| PluginOrder.Resolve | plugins/hostconfig/plugin_config.go:180-212 | the depth-first search succeeds exactly on resolvable graphs |
| PluginOrder.Resolver.Visit | plugins/hostconfig/plugin_config.go:183-204 | a visit orders the plugin after everything it needs, or gives a reason that refutes the graph |
| PluginOrder.Resolver.VisitNeeds | plugins/hostconfig/plugin_config.go:191-200 | every need of the plugin is met by what was ordered |
| PluginOrder.ReadEntries | plugins/hostconfig/plugin_config.go:143-164 | reads the entries exactly when they are readable |
| PluginOrder.FindProviders | plugins/hostconfig/plugin_config.go:166-178 | maps every capability to its provider exactly when capabilities are unique |
| PluginOrder.OrderBreaksCycles | plugins/hostconfig/plugin_config.go:183-204 | nothing on a cycle can be ordered with providers first |
| PluginOrder.OrderedIsResolvable | plugins/hostconfig/plugin_config.go:142-213 | a graph that can be ordered at all is resolvable |
| PluginOrder.OneGraph | plugins/hostconfig/plugin_config.go:143-178 | the entries determine the graph |
| RpcTable.OutcomesReachTheirCalls | plugins/external/host.go:670-766 | in every interleaving a channel gets at most one outcome, a response reaches only the call with its id, and the table never exceeds its limit |
| RpcTable.OutcomeIsFinal | plugins/external/host.go:714-731 | a call that got its outcome never gets another |
| RpcTable.SendNeverBlocks | plugins/external/host.go:865-880 | a send never finds its one-slot channel full |
| RpcTable.FailureIsForEver | plugins/external/host.go:964-989 | once a failure is recorded it stays, and the table is empty for ever |
| RpcTable.NoCallIsLost | plugins/external/host.go:948-989 | in every interleaving, each registered call that its caller did not give up is pending, on its way, or has its outcome |
| RpcTable.Host.BeginCall | plugins/external/host.go:670-697 | registers a new id exactly when nothing refuses the call, and otherwise returns the first reason |
| RpcTable.Host.SendAll | plugins/external/host.go:948-956 | sends every outcome that was taken, and nothing else |
| RpcTable.Host.FailHost | plugins/external/host.go:964-989 | the first failure rejects every pending call, later ones change nothing |
| RpcTable.Host.DeliverResponse | plugins/external/host.go:865-880 | a response goes to the call with its id, once; an unknown one fails a host that is not closing, with that reason unless it had failed before, and rejects every pending call |
| DirSync.Root.Apply | internal/dirsync/dirsync.go:99-151 | a successful Apply leaves exactly the three-way merge; it succeeds exactly when names are safe, deleted names readable and the merge a tree; on a host equal to its base it leaves exactly the result; after an error the reported names, and only they, have their merged state; every written file, and no other, gets mode 0600 |
| DirSync.Root.ApplyChanges | internal/dirsync/dirsync.go:111-150 | the same for its two loops, whatever the order of the names |
| DirSync.Root.RetireDeleted | internal/dirsync/dirsync.go:112-132 | removes exactly the deleted files that nobody changed |
| DirSync.Root.WriteChanged | internal/dirsync/dirsync.go:133-148 | writes exactly the added and changed files, and directories give way only where they must |
| DirSync.Root.RemoveEmptyDirectories | internal/dirsync/dirsync.go:155-175 | refuses exactly when a file is below, and otherwise removes exactly that subtree |
| DirSync.Root.WriteFile | internal/dirsync/dirsync.go:179-194 | fails exactly when a file lies on the way, and otherwise sets the one file, its mode and its parents |
| DirSync.MergeKeepsConcurrentEdits | internal/dirsync/dirsync.go:93-98 | what the run did not change stays as it is now, a deleted file survives a concurrent edit, and every other change arrives |
| DirSync.UnmovedHostBecomesResult | internal/dirsync/dirsync.go:93-98 | on an unmoved host the merge is the result, and only the result can be at fault |
| DirSync.DisjointRunsCommute | internal/dirsync/dirsync.go:1-5 | concurrent runs collide only on files that both changed: otherwise the order does not matter and both runs' changes are there |
| DirSync.ApplyingTwiceIsOnce | internal/dirsync/dirsync.go:99-151 | applying the same result again changes nothing |
| EditPatch.ParseInvertsFormat | plugins/edit/edit.go:237-288 | parsing the documented format gives the blocks back if and only if no line of theirs reads as the marker that ends its part |
| EditPatch.ParsePatch | plugins/edit/edit.go:237-288 | the loop with its two builders computes the specified parse, with its errors |
| EditApply.OneRegionChanges | plugins/edit/edit.go:292-377 | applyOne succeeds exactly on one match counted without overlap, or no match and one window of lines; then exactly that region changes |
| EditApply.ExactMatchIsUnique | plugins/edit/edit.go:296-301 | a single counted match is unique in every file if and only if the search text does not overlap itself |
| EditApply.OverlapCountsOnce | plugins/edit/edit.go:296-301 | a text with a border occurs twice in a file in which it is counted once |
| EditApply.ApplyOne | plugins/edit/edit.go:292-311 | computes the specified edit or its error |
| EditApply.FuzzyFind | plugins/edit/edit.go:337-365 | finds the first place where the lines read like the search text line by line, if there is one, and the number of such windows |
| EditFile.EndingsAreRestored | plugins/edit/edit.go:200-222 | normalising and restoring the line endings gives the file back if and only if it did not mix them |
| EditFile.WrittenReadsBack | plugins/edit/edit.go:200-222 | the written text reads back as the edited text if and only if the file has CR LF endings or the text none |
| EditFile.PatchReadsBack | plugins/edit/edit.go:157-234 | a patch of plain blocks applies them in order, and the file reads back as the text they leave if and only if that is unchanged, or free of stray CR LF and of a leading mark of its own |
| EditFile.Apply | plugins/edit/edit.go:157-234 | blocks in order, each on the result of the one before; a patch that changes nothing leaves every byte |
| EditMeaning.FailureMeans | plugins/edit/edit.go:292-311 | a block fails for an empty text, for one that is nowhere, exactly or alike, or for one that is there more than once, with the number of disjoint matches or of windows |
| EditMeaning.CountIsLargest | plugins/edit/edit.go:292-311 | the number of exact matches is the largest number that do not overlap |
| EditMeaning.FailedBlockIsNamed | plugins/edit/edit.go:211-216 | a failed patch names the first block that cannot be applied to what the blocks before it left |
| EditMeaning.UnendedSearch | plugins/edit/edit.go:242-248 | a block whose search text has no separator is named by its place after the complete ones |
| EditMeaning.NoSearchText | plugins/edit/edit.go:249-252 | and so is one without search text |
| EditMeaning.PlainLineIsItself | plugins/edit/edit.go:379-388 | a line reads as itself without its trailing spaces and tabs, unless it has typographic characters, and never as one that has any |
| EditMeaning.KeepsMarkAndEndings | plugins/edit/edit.go:199-224 | a changed file keeps its byte order mark, and one with CR LF endings has no others |

## Left out

- SQL text, the driver, locks, schema and fsync: a transaction is one atomic, durable step.
- JSON encoding and typed payload decoding: payloads are datatypes, so checks for a payload of the wrong type cannot be expressed; `Events.Sound` says what the writers guarantee.
- Ids as strings, random generation and clocks: fresh numbers and a given time.
- Runs and reservations that another process could change: the store's file lock makes the process the only writer.
- Compaction and model context contents (`runtime/sqlite/store.go:1380-1548`): a fold over the log that no other property here uses.
- HTTP, SSE, the E2B wire client, tar, symlinks, GitHub tokens and process groups: calls into other code.
- Context cancellation and wait groups of the manager: every thread may stop at any step; only safety is stated, not that a thread goes on.
- Timeouts, fairness and wall-clock liveness: progress is stated as `ManagerRuns.NoWakeupIsLost`.
- The web client's transient notices: they are outside the durable log, and `ProjectionTheorems.CursorAside` is about the durable view.
- Names of kinds, agents, templates and errors beyond what a branch depends on.
- Hunk headers as text: `Hunks.Hunk` holds the numbers and lines that the header and body are printed from.
- saveFull and the wording of the truncation note (`plugins/bash/bash.go:237-279`).
- Building plugins from their configuration (`plugins/hostconfig/plugin_config.go:236-351`): decoding an entry is an oracle.
- Stdin, kill, health, frames and capability negotiation of an external plugin: outside the pending-call table. Waiting for readers before the rejection at shutdown is one of the interleavings.
- Locks, jails and atomic file replacement of the edit tool: the model edits the text of one file.
- Symbolic links and special files in a synced directory; the names of temporary files never collide.
- The denial key of a call: equal calls have equal keys, by a canonical form that is not part of this model.
- Writers that outlive a closed host: after a successful `host.Close` nothing writes to the sandbox. A background process that a tool left running could; the model takes it that there is none.
- Hooks, approvers and sinks that change a call's arguments in place: `preflight.go:190` passes the call on without a copy. The model takes it that they do not, so the input that was cleared is the one that runs.
- Runners that emit after they have returned: a runner of the model emits only while it executes. `StoreProperties.LateTurnUnsettles` shows what a late turn would do.
- The default of `MaxTurns` (`core.go:390-393`, 0 becomes 25): `World.maxTurns` is the resolved value.
- DirSync.Root.Apply: says nothing of the modes of directories, and the directories after an error are those that the steps before it made.
- TurnLoop.Core.Run: the contents of observations, results, answers and histories are not part of the trace; the answers of a call's hooks, projection and approval are fixed with the call, not with the time they are asked at.
