# Native client protocols, in Dafny

A model of the concurrent state machines and the denser algorithms of the native client, with proofs of what they
promise. `dafny verify dfyconfig.toml` checks the whole project.

Two shapes recur. A protocol is a value `State`, a `Step` for each thing that can happen next (a caller, a frame, a late
completion, a click), `Enabled` and `Next`, and lemmas over every sequence of steps. Beside it stands a class with the
program's own fields whose methods, loops included, are proved to be those steps and to keep the invariant proved of
every run (`Valid`). Histories (`trace`, `notes`, `finished`, `ledger`) exist only so that promises can be stated.

- **The bus** (`Bus`, `BusCalls`, `BusEvents`, `PowerPause`, `PauseClicks`, `PauseLaws`, `BusAnswers`,
  `BusPaths`, `BusPromises`, `BusActor`): one socket owner, correlated calls, reconnects and intentional pauses.
- **Conversations** (`Transcripts`, `Conversation`, `ConversationProof`, `ConversationPromises`, `ConversationLaws`,
  `ConversationWorker`): snapshot-plus-delta reads behind epoch and selection fences.
- **Projects** (`Projects`, `ProjectLocks`): read-patch-save rounds under a lock per hub.
- **Sent messages** (`Echo`, `EchoLimits`, `EchoPromises`): matching sends to their echoes in the transcript.
- **Diffs** (`Numerals`, `Diff`, `DiffPrint`, `DiffMeaning`): the unified-diff parser against a printer of edit scripts.
- **Task logs** (`TaskLog`, `TaskFollow`, `TaskServer`, `TaskPanel`): following a growing, or rewritten, file through a
  bounded tail.
- **Shells** (`Shells`, `ShellProof`, `ShellRuns`, `ShellCalls`, `ShellLaws`, `ShellPromises`, `ShellWorker`): batched
  input and coalesced resizes per agent.
- **Request slots** (`Requests`, `RequestProof`, `RequestLaws`, `RequestTable`) and **shared documents** (`Documents`).
- **Child agents** (`ChildAgents`, `ChildProof`, `ChildPlaces`, `ChildProject`), **history** (`Sorting`, `History`,
  `HistoryProof`, `HistoryPlaces`), **themes** (`Palettes`, `Themes`) and the **type walk** (`TypeGraph`) of the Go
  reference tool.

## Where the code does less than it says

Each of these is proved, by a run or an input that shows it and, wherever the promise depends on one, by the exact
condition under which it holds.

- *A row can acknowledge two sends.* `reconcile_messages` (apps/native/src/controller.rs:1112-1117) re-anchors a waiting
  send at the last row the frame consumed, which may lie before rows that send was already past
  (`EchoLimits.OneRowAcknowledgesTwoSends`, a run from the start). Sends that leave from `Tidy` states never come to that,
  and each is acknowledged by a later row (`Echo.TidySendsAreSafe`, `Echo.TidySendsAreNeverEarly`); from any untidy state
  the very next send can be acknowledged by a row already shown (`EchoLimits.UntidySendIsAcknowledgedEarly`).
- *A write can strand its slot.* A guarded write without a single named method is accepted while the hub is away
  (apps/native/src/controller.rs:1137-1141); if it is still out when the hub returns, its answer is dropped, and no other
  of its kind is taken until the connection ends (`RequestProof.WriteAcrossAConnectionStrandsItsSlot`,
  `RequestProof.OnlyAConnectionStrands`).
- *A failed read forgets a reset* processed behind it: nothing guards apps/native/src/controller.rs:2752, and the old
  generation stays on screen until the next poll (`ConversationPromises.AForgottenReset`). That branch with
  `reset_pending` set is exactly when a reset is left with no read to follow
  (`ConversationPromises.FailedReadForgetsTheReset`), and over runs exactly such failures, or that of the read a reset or
  new screen waited for, leave a settled screen behind (`ConversationPromises.SettledScreenIsPastEveryReset`).
- *Merging buffered deltas* differs from replaying them when the first claims more items than its number allows
  (`Transcripts.MergeExact`); it can only cost another read.
- *A rewritten file can go unseen.* The daemon says `reset` only when it finds the file shorter than the position asked
  (services/claudemon/src/session/background_tasks.rs:669-673), so a longer rewrite is appended to the old text
  (`TaskPanel.RewriteGoesUnseen`; exactly when, and when that still shows the new file, `TaskPanel.UnseenRewrite`). The
  log itself cannot tell a late read of a former file (`TaskFollow.LateReadMixesFiles`); the panel never folds one in
  (`TaskPanel.NoLateRead`). A cut that falls exactly on a line start gives that line up
  (`TaskFollow.CutKeepsWholeLines`).
- *A bounded read panics* when its whole window lies inside one character (`TaskServer.FaultsInsideACharacter`,
  `TaskServer.ReadInsideACharacter`); positions the client was given never do that.
- *A colour beyond its slot's digits* is stored but not shown (`Themes.SetColorIsShown`,
  `Themes.SetColorStoresOnlyChanges`).
- *A save can change the hub and still be told to have failed*: git settings nobody normalised are taken
  and then not found (`Projects.PatchHolds`).
- A diff line that ends in a carriage return is shown without it; otherwise a row shows the line itself.

## Model
| member | source | states |
|---|---|---|
| BusPromises.AtMostOnce | apps/native/src/bus.rs:349-371 | Over every run of callers, expiries, disconnects, reconnects and lost, repeated or foreign frames: one frame per call, under an id never used before, on one socket; one verdict per call; at most 64 pending |
| BusPromises.NotSentMeansNeverWritten | apps/native/src/bus.rs:349-361 | A caller told "not sent" never has a frame on any socket, before or after |
| BusPromises.HubVerdictIsItsOwnReply | apps/native/src/bus.rs:392-396 | A hub result or error is that of a reply frame bearing the call's own id, read on the socket that carried the call, after it was written |
| BusAnswers.ReplyAnswersItsCaller | apps/native/src/bus.rs:392-396 | A reply frame for a pending call answers its caller at once with the hub's own error or value, takes the id off, and touches nobody else |
| BusAnswers.ReadReplyLeavesNobodyWaiting | apps/native/src/bus.rs:392-396 | In no run does a caller still wait whose frame was written and a reply to it then read on that socket |
| BusAnswers.TakenCallIsWrittenOrRefused | apps/native/src/bus.rs:191-204 | A call taken goes on the wire under the next id, or its caller is told it was not sent, by exactly the stated guard |
| BusAnswers.EndedConnectionAnswersEveryone | apps/native/src/bus.rs:435-442 | However a connection ends, every pending caller is told the outcome is unknown and nothing stays pending |
| BusAnswers.WaitingHasASender | apps/native/src/bus.rs:160-181 | In every run a caller that waits has its call in the queue or pending |
| BusAnswers.CallerHearsItsSlot | apps/native/src/bus.rs:160-181 | A caller returns what it was answered, and "outcome unknown" if nobody will or it gave up |
| BusAnswers.FlagsTellTheTruth | apps/native/src/bus.rs:330-348 | In every run: connected while a ready connection lasts, the hub told the present topics, and the wait before a dial that of the dials since the last hello |
| BusPaths.CallIsQueuedOrTold | apps/native/src/bus.rs:160-181 | A call waits at the end of the queue, or is told at once it was not sent when the hub is away, the queue full or the actor gone |
| BusPaths.TakenTopicsStand | apps/native/src/bus.rs:330-348 | Topics wait their turn, stand once taken, and a ready connection is told of them or ends |
| BusPaths.HelloConnects | apps/native/src/bus.rs:381-391 | A dial, the hub's hello and a greeting that goes out make a connection: announced, ready, with the present topics and the first backoff |
| BusPaths.EventIsAnnounced | apps/native/src/bus.rs:397-409 | A typed event on a ready connection is announced, or ends the connection when the window's queue is full |
| BusPaths.TroubleEnds | apps/native/src/bus.rs:372-434 | What cannot be read, sent or answered ends the connection |
| BusPaths.CloseEnds | apps/native/src/bus.rs:419-429 | A close ends the connection; code 4001 alone begins a pause and sets the latch |
| BusPaths.EndIsAnnounced | apps/native/src/bus.rs:442-453 | An end is announced as a pause, after which nothing dials, or as a disconnection, after which a dial follows |
| BusPaths.ResumeDials | apps/native/src/bus.rs:239-253 | A resume taken in a pause dials the next socket with the first backoff; taken anywhere else it does nothing |
| BusCalls.ReplyStep | apps/native/src/bus.rs:392-396 | Any reply frame keeps the account of who is owed what (that it answers: `BusAnswers.ReplyAnswersItsCaller`) |
| BusCalls.StepKeeps | apps/native/src/bus.rs:226-465 | Every step of actor and callers keeps the account of every call |
| BusPromises.EveryRunTellsTheStory | apps/native/src/bus.rs:239-464 | Every run emits a prefix of ((Connected Data*)? (Disconnected or PowerPaused))* and dials only from rest |
| BusPromises.EveryConnectionIsGapFree | apps/native/src/bus.rs:397-409 | On each connection the data announced is an in-order prefix of the typed event frames read after hello, all of them while it lasts |
| BusEvents.NoDialWhileAsleep | apps/native/src/bus.rs:239-253 | Between a pause announcement and any later dial the pause ended |
| BusEvents.NeverBroken | apps/native/src/bus.rs:442-464 | The event order holds at every moment of a run, not only at its end |
| BusPromises.TokensConserved | apps/native/src/bus.rs:129-142 | Latch, resumes between swap and enqueue, and queued resumes add up to one during a pause and to zero outside it |
| BusPromises.EachResumeEndsOnePause | apps/native/src/bus.rs:239-253 | Pauses, accepted resumes and endings alternate; no resume is left for a later pause |
| BusPromises.AcceptedClickNamesItsPause | apps/native/src/controller.rs:969-980 | An accepted click named the generation of the pause going on, under which no other pause was ever shown |
| BusPromises.ShownPauseCanBeResumed | apps/native/src/controller.rs:1715-1733 | While a pause is on screen the latch is set: only a full queue or a stopped actor refuses a click |
| PauseLaws.DeliveredPauseIsShown | apps/native/src/controller.rs:1715-1733 | A pause delivered is on screen under a generation of its own; a connection or a plain end takes it off |
| PauseLaws.ClickIsForwardedIff | apps/native/src/controller.rs:969-980 | A click is forwarded if and only if it names the pause on screen and the latch is set |
| PauseLaws.ClickIsQueuedOrMayBeRepeated | apps/native/src/bus.rs:129-142 | A forwarded click is queued, or the pause stays on screen with its latch set again |
| PauseLaws.ClickEndsThePause | apps/native/src/controller.rs:969-980 | One click on the pause shown, with nothing else queued, makes the sleeping actor dial |
| PauseClicks.MoveKeeps | apps/native/src/controller.rs:665-675 | Bus, delivery and clicks, in any interleaving, keep the ledger of pauses and generations |
| BusActor.SoundPromises | apps/native/src/bus.rs:226-465 | A client in order has at most 64 calls pending, true verdicts only, one frame and one verdict a call, an unbroken story, this connection's data whole, and one resume token in a pause and none outside |
| BusActor.Hub.constructor | apps/native/src/bus.rs:99-118 | A client starts dialing, in order |
| BusActor.Hub.ResumePowerPause | apps/native/src/bus.rs:129-142 | Either one resume is queued and the latch consumed, and it is the one token of the pause going on, or nothing changes |
| BusActor.Hub.Call | apps/native/src/bus.rs:160-181 | A caller is refused or queued; a refused call is never written |
| BusActor.Hub.OfflineCommand | apps/native/src/bus.rs:191-204 | A command taken while offline keeps every promise; in a pause a resume dials again |
| BusActor.Hub.LeaveConnection | apps/native/src/bus.rs:435-442 | The loop answers every pending call "outcome unknown" and forgets it |
| BusActor.Hub.SendCall | apps/native/src/bus.rs:349-369 | A call is refused when unready, expired, abandoned or the 65th, else written under the next id |
| BusActor.Hub.LiveCommand | apps/native/src/bus.rs:328-371 | A command taken on a live connection keeps every promise, at most 64 pending included |
| BusActor.Hub.OnFrame | apps/native/src/bus.rs:372-432 | Any frame is the specified step and keeps every promise; what each frame does: `BusAnswers.ReplyAnswersItsCaller`, `BusPaths` |
| BusActor.Hub.AnnounceEnd | apps/native/src/bus.rs:442-453 | The end of a connection is announced as a pause or a disconnection, and the story goes on |
| BusActor.Hub.BackedOff | apps/native/src/bus.rs:454-463 | The hub is dialed again from rest, the wait doubled up to its bound |
| Transcripts.MergeSound | apps/native/src/model.rs:1126-1145 | A merged delta that meets no gap does what its two parts do |
| Transcripts.MergeExact | apps/native/src/model.rs:1126-1145 | Merging equals replaying on every transcript if and only if the first part's numbering is well formed or the second brings no items |
| Transcripts.BufferStands | apps/native/src/model.rs:1126-1145 | Buffering keeps the held deltas standing for everything received |
| Transcripts.ReplayShowsTheLog | apps/native/src/model.rs:1231-1266 | A gap-free fold of an honest snapshot and deltas is the session's log itself |
| Transcripts.DeltaIsTakenIff | apps/native/src/model.rs:1231-1266 | An honest delta is taken if and only if it starts no later than the cursor; a reset starts over, a ready changes nothing |
| Transcripts.NextDeltaNeedsNoRoom | apps/native/src/model.rs:1126-1145 | A delta that starts where the last one held ends is folded into it, any other is held by itself |
| ConversationPromises.EnteringShowsItsOwn | apps/native/src/controller.rs:1418-1507 | In every run, entering a child or returning shows what that very child or session last showed, settled, on this connection; or nothing, and says it is loading |
| ConversationPromises.ReturningShowsTheParent | apps/native/src/controller.rs:1418-1507 | Looking into a child and back shows a settled parent's rows and window again at once |
| ConversationPromises.ReentryShowsTheChild | apps/native/src/controller.rs:1458-1507 | Leaving a child and coming back shows its settled rows again at once, if they fit the bound by themselves |
| ConversationPromises.ScreenIsHonest | apps/native/src/controller.rs:1509-1531 | In every run a screen that says loading awaits a read, a read asks for the window shown, and a child's screen is as long as its newest snapshot |
| ConversationLaws.NoRowsCarryOver | apps/native/src/controller.rs:1418-1568 | In every run a step that changes whose rows are on screen shows that owner's own last settled rows, or none |
| ConversationLaws.SelectKeepsOnlyItsOwn | apps/native/src/controller.rs:1533-1568 | Selecting again what is selected keeps its rows and window, selecting anything else starts empty |
| ConversationLaws.CommandsRead | apps/native/src/controller.rs:994-1011 | A poll, refresh, selection, child, connection, ready, reset or gap leaves what is on screen being read |
| ConversationLaws.OlderAsksForMore | apps/native/src/controller.rs:994-1001 | Older rows are asked for 200 more at a time |
| ConversationLaws.ViewChildIsRefusedIff | apps/native/src/controller.rs:1418-1427 | A child is refused only when it is on screen, or its parent is neither selected nor known |
| ConversationLaws.DeltaIsShownAtOnce | apps/native/src/controller.rs:1956-2015 | A delta that follows a settled screen is shown at once, behind a read too |
| ConversationLaws.BacklogIsKeptWithinBounds | apps/native/src/controller.rs:1988-1999 | Up to 64 deltas and 2 MiB wait behind a read; one too many gives the backlog up for another read |
| ConversationLaws.ChildReplyIsShown | apps/native/src/controller.rs:2706-2719 | A child's reply replaces its rows, unless as many up to the same item were shown |
| ConversationLaws.ConnectionsKeepTheScreen | apps/native/src/controller.rs:1715-1758 | A lost connection leaves the rows on screen; a new one reads again what was on screen, the child included |
| ConversationProof.TakenIsTheOwners | apps/native/src/controller.rs:1491-1507 | A transcript taken from those held is of this connection and of that exact owner |
| ConversationPromises.BacklogStandsForEveryDelta | apps/native/src/controller.rs:1956-2015 | While a read is in flight another will follow it, or the backlog stands for every plain delta received since it was asked for |
| ConversationPromises.AdoptedReplyIsForTheScreen | apps/native/src/controller.rs:2706-2709 | An adopted reply was asked for on this connection, for exactly the session or child on screen |
| ConversationPromises.PendingMeansOneRead | apps/native/src/controller.rs:1509-1531 | While connected each pending flag holds iff exactly one current read is outstanding, however many stale ones are |
| ConversationPromises.AdoptedSnapshotIsPastEveryReset | apps/native/src/controller.rs:2720-2734 | A snapshot that is adopted was asked for after the last reset processed |
| ConversationPromises.SettledTranscriptMissesNothing | apps/native/src/controller.rs:2735-2751 | Between reads, after one that succeeded, the transcript is its snapshot folded with every later delta, without a gap, and no reset was processed since that snapshot was asked for |
| ConversationPromises.FailedReadForgetsTheReset | apps/native/src/controller.rs:2752-2756 | A reply leaves a reset that came behind its read with no read to follow if and only if the read failed with `reset_pending` set; a failure forgets a reset if and only if one came behind it or it was the read a reset or new screen waited for |
| ConversationPromises.SettledScreenIsPastEveryReset | apps/native/src/controller.rs:2720-2756 | A settled screen is past every reset processed if and only if no failure since its snapshot was adopted forgot one |
| ConversationPromises.AForgottenReset | apps/native/src/controller.rs:2752-2756 | A run in which a reset behind a failed read leaves the old generation on screen, deaf to the new one |
| ConversationPromises.SettledTranscriptIsTheLog | apps/native/src/controller.rs:2735-2751 | With an honest hub that transcript is the session's log from the window to the cursor |
| ConversationProof.StepKeeps | apps/native/src/controller.rs:1956-2015 | Every command, event and late completion keeps the fences, the pending flags, the backlog and whose transcript is held |
| ConversationProof.EvictKeepsTheNewest | apps/native/src/controller.rs:1458-1489 | Eviction keeps the longest run of newest children within both bounds |
| ConversationProof.WithoutDropsOnlyTheChild | apps/native/src/controller.rs:1458-1489 | Holding a child's transcript again drops only its own older copy |
| ConversationWorker.Worker.FetchConversation | apps/native/src/controller.rs:1509-1531 | Asking puts the screen in order: at most one conversation read, none behind a child or a lost connection |
| ConversationWorker.Worker.FetchChild | apps/native/src/controller.rs:1391-1411 | At most one child read while connected |
| ConversationWorker.Worker.HoldTranscript | apps/native/src/controller.rs:1458-1489 | The settled transcript being left is kept, at most 8 children and 16 MiB of them |
| ConversationWorker.Worker.Select | apps/native/src/controller.rs:1533-1568 | Every outstanding read becomes stale, the backlog is empty and a read is asked for |
| ConversationWorker.Worker.BehindRead | apps/native/src/controller.rs:1988-1999 | Behind a read at most 64 deltas and 2 MiB wait, standing for every plain delta since it was asked for, or another read follows |
| ConversationWorker.Worker.ConversationEvent | apps/native/src/controller.rs:1956-2015 | A reset or a ready is always answered by a read, behind the one in flight if there is one |
| ConversationWorker.Worker.CompleteConversation | apps/native/src/controller.rs:2706-2757 | A stale reply changes nothing, a snapshot adopted is past every reset, and a read asked to resync is asked again |
| Projects.PatchHolds | apps/native/src/projects.rs:635-730 | A saved patch is held if and only if its git values read back as written (`Projects.SettingsReadBackIff`), and no other directory changes; its own entries' other fields: `Projects.PatchSparesTheRest` |
| Projects.PatchSparesTheRest | apps/native/src/projects.rs:649-675 | A patch sets one thing of a project's entries and leaves every other field of each, and every other project, alone |
| Projects.UnnamedFieldsAreKept | apps/native/src/features.rs:1379-1436 | In every run a field no taken patch names is still what the hub began with |
| Projects.TouchKeepsTheLatest | apps/native/src/projects.rs:649-675 | A touch records its time or the latest one known |
| Projects.PatchRefuses | apps/native/src/projects.rs:635-730 | A patch is refused exactly for a relative directory, an entry that cannot be edited, or the removal of a project with more than a pin and a time |
| Projects.HeldIffNothingIsLeftToDo | apps/native/src/projects.rs:735-790 | The hub holds a change when patching it in again would change nothing, and for pins, names and removals only then |
| Projects.SettingsReadBackIff | apps/native/src/projects.rs:635-730 | Git settings read back as written exactly with a known provider and no blanks around the remote |
| Projects.BlanksDoNotMatter | apps/native/src/projects.rs:635-730 | Blanks around git settings never matter |
| Projects.HeldSurvives | apps/native/src/projects.rs:635-730 | A held change of any kind survives every later patch but one that sets the same thing or a removal |
| Projects.NoLostUpdate | apps/native/src/features.rs:1379-1436 | With any interleaving of rounds, failures and abandoned jobs the hub's map is the fold of the patches it took, in lock order |
| Projects.TakenChangeIsNeverErased | apps/native/src/features.rs:1379-1436 | A change the hub took is still there after any number of other rounds, until one disturbs it |
| Projects.RevisionsFollowTheHub | apps/native/src/backend.rs:216-224 | Two finished rounds have different revisions, each answers a state the hub had, and the higher revision never the earlier state |
| Projects.RevisionsStrictlyIncrease | apps/native/src/features.rs:1379-1391 | A round that finishes later has a strictly higher revision than every round that had finished |
| Projects.ToldSaveHolds | apps/native/src/features.rs:1432-1436 | A save whose window was told success holds in its answer, and in the hub until a later patch disturbs it |
| Projects.RegistryIsTheNewestProcessed | apps/native/src/controller.rs:2308-2319 | In any completion order a controller holds the answer of the highest revision it processed |
| Projects.StepKeeps | apps/native/src/features.rs:1065-1082 | Every step of every round keeps the lock, the queue and the recorded revisions |
| ProjectLocks.LockTable.Prune | apps/native/src/backend.rs:31-41 | Locks nobody holds leave the table |
| ProjectLocks.LockTable.ProjectWritesFor | apps/native/src/backend.rs:31-41 | Whoever asks while a hub's lock is held gets that lock; otherwise a fresh one |
| ProjectLocks.LockTable.Drop | apps/native/src/backend.rs:31-41 | Letting go lowers one count and nothing else |
| ProjectLocks.Hub.ProjectSnapshot | apps/native/src/features.rs:1381-1391 | A snapshot takes the next revision |
| ProjectLocks.Hub.SaveProject | apps/native/src/features.rs:1393-1436 | A round changes the map by exactly its patch or not at all, and succeeds, answering a map that holds the change, if and only if the hub kept it |
| Echo.GreedyClearsAll | apps/native/src/controller.rs:1088-1123 | If each send has an echo after its anchor, in send order, one frame clears them all |
| Echo.TidySendsAreSafe | apps/native/src/controller.rs:1088-1123 | When every send leaves from a tidy state no row acknowledges two sends, in a frame or across frames |
| EchoLimits.UntidySendCanDoubleAcknowledge | apps/native/src/controller.rs:1088-1123 | From an untidy state with room for two more, a send opens a run in which a row acknowledges two sends |
| Echo.TidySendsAreNeverEarly | apps/native/src/controller.rs:1088-1123 | When every send leaves from a tidy state each is acknowledged by a row that came after it was sent |
| EchoLimits.UntidySendIsAcknowledgedEarly | apps/native/src/controller.rs:1088-1123 | A send from any untidy state, two frames and nothing else: it is acknowledged by a row shown before it was sent; so tidiness is exact |
| EchoLimits.OneRowAcknowledgesTwoSends | apps/native/src/controller.rs:1088-1123 | A run from the start in which one row acknowledges two sends |
| EchoLimits.UntidyIsReached | apps/native/src/controller.rs:1088-1123 | An untidy state is reached by one tidy send, its echo and one more row |
| EchoPromises.EverySendIsAccountedFor | apps/native/src/controller.rs:1088-1123 | In every run, tidy or not, a message waits until a row that repeats it in its session acknowledges it or its own action fails; it is acknowledged once, and at most 32 wait |
| EchoPromises.OnlyItsFailureGivesUp | apps/native/src/controller.rs:2821-2823 | Only a failed action gives a message up, and only its own |
| EchoPromises.FrameLeavesTheOthers | apps/native/src/controller.rs:1095-1107 | A frame leaves another session's send, and one whose anchor is gone, as it is |
| EchoPromises.SendGoesToTheSessionShown | apps/native/src/controller.rs:2129-2160 | A message goes to the session shown, and waits there |
| EchoPromises.TidyFramesMissNothing | apps/native/src/controller.rs:1088-1123 | After a frame of a tidy run a message waits beside a row that repeats it only when a later row acknowledged another message |
| Echo.StepKeeps | apps/native/src/controller.rs:2129-2160 | Sends, rows, frames and switches keep order, anchors and used rows |
| Echo.ReconcileMessages | apps/native/src/controller.rs:1088-1123 | The frame's loop is the modelled matching |
| Echo.Settle | apps/native/src/controller.rs:1094-1108 | One send is matched to the first echo after its anchor and after the rows consumed |
| DiffMeaning.ParseUndoesPrint | apps/native/src/diff.rs:52-121 | For any files and edit script, parsing the diff git prints gives the script's rows, and under the cap its totals of added and removed lines |
| DiffMeaning.FileRowsShow | apps/native/src/diff.rs:52-121 | Every row's numbers index the very lines it shows, and the numbers rise on both sides |
| DiffPrint.HeaderRead | apps/native/src/diff.rs:42-50 | A printed hunk header reads back as the numbers of the first lines it covers, empty ranges included |
| DiffPrint.OpRead | apps/native/src/diff.rs:82-117 | A printed hunk line reads as its row, `---` and `+++` look-alikes included |
| DiffPrint.LinesOfText | apps/native/src/diff.rs:56 | Splitting written text into lines gives the lines back, without a final carriage return |
| DiffPrint.FilesRead | apps/native/src/diff.rs:52-121 | Several files in one text are read apart |
| DiffMeaning.DiffRowsCount | apps/native/src/diff.rs:85-98 | The rows expected hold exactly the script's added and removed lines |
| DiffMeaning.EveryRowShowsItsLine | apps/native/src/diff.rs:52-121 | Whatever the text, each line has its row, which shows it whole or, with its kind and number, without the mark in front |
| DiffMeaning.NumberedRowsFollowAHeader | apps/native/src/diff.rs:62-118 | Whatever the text, a numbered row stands in a hunk: only numbered rows and notes lie between it and a header |
| DiffMeaning.HunkNumbersFit | apps/native/src/diff.rs:42-50 | A header's numbers fit 32 bits, or it is no header |
| Diff.ReadLine | apps/native/src/diff.rs:67-118 | One line is classified and numbered as specified |
| Diff.Parse | apps/native/src/diff.rs:52-121 | The loop keeps the first 20,000 rows, says whether more were cut, and totals the rows kept |
| Numerals.DigitsRead | apps/native/src/diff.rs:48-49 | A written decimal number reads back as itself |
| TaskFollow.EveryRunFollowsTheFile | apps/native/src/background_tasks.rs:299-372 | From a new log, for replies of a growing file in any order, stale, repeated, foreign or resetting: the text is exactly the file bytes ending at the next offset, within the bound, and whole unless marked truncated |
| TaskFollow.EveryReplyKeepsTheTail | apps/native/src/background_tasks.rs:323-370 | Each reply leaves the log on its file's tail |
| TaskFollow.TakenReplyTells | apps/native/src/background_tasks.rs:322-372 | A reply that is taken, by exactly the stated test, says all the log then says of its task, each from its own field; any other says nothing |
| TaskFollow.SecondDeliveryChangesNothing | apps/native/src/background_tasks.rs:318-321 | A reply delivered twice counts once |
| TaskFollow.ContinuedLogFollowsIff | apps/native/src/background_tasks.rs:339-370 | A read that continues the log leaves it on its file's tail if and only if what is left of the old text is what that file holds there |
| TaskFollow.LateReadMixesFiles | apps/native/src/background_tasks.rs:348 | Three replies, the last a late read of a rewritten file: the log mixes two files |
| TaskFollow.EveryRewriteIsFollowed | apps/native/src/background_tasks.rs:339-350 | Through any number of rewrites the log is the tail of the file last reset to, when every continuing read is of the file held |
| TaskFollow.CutKeepsWholeLines | apps/native/src/background_tasks.rs:357-370 | Of the lines starting within the bound, the cut gives up exactly the one that starts at the bound's first character when another line follows it |
| TaskPanel.NoLateRead | apps/native/src/ui/tasks.rs:187-295 | In every run of panel, request slot, daemon and rewritten file, no answer folded in is of an earlier file than the log's |
| TaskPanel.PanelFollowsTheFile | apps/native/src/ui/tasks.rs:187-295 | What was folded in is orderly, and the log the tail of the file it was last taken from, until an answer mixes two files |
| TaskPanel.DoneMeansRead | apps/native/src/ui/tasks.rs:187-200 | In every run a log that says done, with nothing mixed, holds the whole end of the last file of a task that ended |
| TaskPanel.OneRoundReadsOn | apps/native/src/ui/tasks.rs:187-295 | From rest one round of poll, request, read, answer and frame folds in the answer to the log's own position, read from the file on disk |
| TaskPanel.UnseenRewrite | services/claudemon/src/session/background_tasks.rs:669-673 | A continuing answer mixes if and only if the file was rewritten since and found no shorter than the position asked; then the log follows the new file if and only if what is left of the old text agrees with it |
| TaskPanel.RewriteGoesUnseen | services/claudemon/src/session/background_tasks.rs:669-673 | A run in which a file rewritten to something longer leaves the log on neither file |
| TaskPanel.StepKeeps | apps/native/src/ui/tasks.rs:187-295 | Every step of panel, slot, daemon and file keeps the order of answers and the account of what was folded in |
| TaskLog.Log.constructor | apps/native/src/background_tasks.rs:299-307 | A new log is empty and running |
| TaskLog.Log.Trim | apps/native/src/background_tasks.rs:357-370 | The in-place cut is the specified one |
| TaskLog.Log.Place | apps/native/src/background_tasks.rs:339-350 | A reply replaces, continues or changes nothing |
| TaskLog.Log.Apply | apps/native/src/background_tasks.rs:322-372 | The method is the specified fold (what that says of the task: `TaskFollow.TakenReplyTells`), and tells whether it changed anything |
| TaskServer.BoundedRead | apps/native/src/harness.rs:1248-1260 | The two boundary loops find the specified part of the file |
| TaskServer.FaultsInsideACharacter | apps/native/src/harness.rs:1254-1267 | The read panics if and only if its window holds no character boundary |
| TaskServer.ReadInsideACharacter | apps/native/src/harness.rs:1250-1267 | Such a read: one byte at a position inside a three-byte character |
| TaskServer.GivenPositionsAreAnswered | apps/native/src/harness.rs:1250-1254 | A position the client was given is always answered, from exactly there |
| TaskServer.MovesOnIffACharacterFits | apps/native/src/harness.rs:1250-1260 | A read moves on if and only if the next character fits in it |
| TaskServer.ReadingOnReachesTheEnd | apps/native/src/harness.rs:1248-1267 | Reading on reaches the file's end in no more reads than bytes left |
| TaskServer.FirstReadIsTheTail | apps/native/src/harness.rs:1250-1253 | The first read ends where the file does |
| TaskServer.ReadOnTells | services/claudemon/src/daemon/api.rs:2283-2285 | After a read the log is done exactly when the task no longer runs and its file is read to the end, and running exactly when it runs |
| TaskServer.ReadsAreBounded | apps/native/src/harness.rs:1248-1260 | A read is never longer than asked, and shorter only at the file's end or before a character that would not fit |
| TaskServer.ReadOnFollows | apps/native/src/harness.rs:1261-1274 | Server and client together keep the log on the file's tail |
| ShellPromises.TypedBytesGoOutInOrder | apps/native/src/controller.rs:3123-3138 | Over every run, the bytes the input calls carry, call by call, and then the buffer are the bytes accepted since the last clear, and the buffer is within 1 MiB |
| ShellPromises.NotesTellTheCalls | apps/native/src/controller.rs:3188-3314 | In every run each outstanding call is the one issued under its number, and what is noted of bytes and sizes is what the calls carry |
| ShellCalls.FlushInputSends | apps/native/src/controller.rs:3258-3284 | Everything buffered goes in one call to the agent's own shell, exactly when there is something, a shell, a hub and no other input call out |
| ShellCalls.FlushResizeSends | apps/native/src/controller.rs:3286-3314 | The newest size goes to the agent's own shell exactly when it is pending and no other resize is out |
| ShellCalls.ShellIsAskedFor | apps/native/src/controller.rs:3188-3256 | A shell is created in the agent's folder and size under a new generation; an attach and a keep-alive name the shell there is |
| ShellLaws.InputIsTakenWhole | apps/native/src/controller.rs:3123-3138 | Bytes typed are taken whole when they fit 1 MiB, and not at all otherwise |
| ShellLaws.OpenOffline | apps/native/src/controller.rs:3058-3099 | Opening without the hub fails, and remembers what was wanted |
| ShellLaws.OpenCreates | apps/native/src/controller.rs:3058-3099 | Opening a shell that is not there creates it in the window's size and its first folder |
| ShellLaws.OpenAttaches | apps/native/src/controller.rs:3058-3099 | Opening one that is there and not shown attaches it, and tells it of a size that changed |
| ShellLaws.HideLeavesTheShell | apps/native/src/controller.rs:3100-3122 | A hidden shell is neither wanted nor shown, but it and what was typed stay |
| ShellLaws.RestartMakesANewShell | apps/native/src/controller.rs:3149-3184 | A restart drops the buffer and makes a new shell in the folder and size given |
| ShellLaws.AdoptRemembers | apps/native/src/controller.rs:3029-3057 | A remembered shell is joined to an agent that has none, out of sight and without a call |
| ShellLaws.OutputShowsLife | apps/native/src/controller.rs:3345-3375 | Output shows that a shell lives; output missed attaches again |
| ShellLaws.SignalsAreFollowed | apps/native/src/controller.rs:3376-3399 | A shell that exits is gone with what was typed for it; one reset is attached again if shown |
| ShellLaws.CreatedIsTaken | apps/native/src/controller.rs:3401-3494 | A shell created is the agent's, attached if on screen, and gets what was typed meanwhile; without an id it failed |
| ShellLaws.AttachIsAnswered | apps/native/src/controller.rs:3401-3494 | An attach shows the shell live, makes another for one that is gone and wanted, or says that it failed |
| ShellLaws.InputGoesOn | apps/native/src/controller.rs:3401-3494 | After an input call what was typed meanwhile goes out |
| ShellLaws.LateAnswersChangeNothing | apps/native/src/controller.rs:2758-2762 | An answer of an earlier connection or shell is only taken off the list |
| ShellLaws.LostConnectionClears | apps/native/src/controller.rs:3518-3541 | After a lost connection nothing is shown, buffered or awaited, and terminals on screen wait to be resumed |
| ShellLaws.ConnectionResumes | apps/native/src/controller.rs:3497-3516 | A new connection attaches each terminal on screen that is there, creates one that is not, and leaves one that exited |
| ShellPromises.OneInputCallAtATime | apps/native/src/controller.rs:3258-3284 | At most one input call is out for an agent's present shell on this connection |
| ShellPromises.LastSizeIssuedIsTheSize | apps/native/src/controller.rs:3286-3314 | With no resize pending the last size issued, by create or resize, is the present one |
| ShellRuns.StepKeeps | apps/native/src/controller.rs:3026-3185 | Every command, event, late completion and reconnection keeps these |
| ShellRuns.CompleteKeeps | apps/native/src/controller.rs:3401-3494 | A completion of an earlier connection or shell is only taken out |
| ShellProof.InvPromises | apps/native/src/controller.rs:3123-3314 | A worker in order holds at most 1 MiB per shell, hands bytes over in the order typed, and last issued the present size or has it pending |
| ShellWorker.Worker.CreateShell | apps/native/src/controller.rs:3188-3225 | A new shell is told the present size and awaits nothing of the former |
| ShellWorker.Worker.FlushInput | apps/native/src/controller.rs:3258-3284 | The method is the specified step (what it sends: `ShellCalls.FlushInputSends`); while connected to a shell nothing stays buffered unless a call is out |
| ShellWorker.Worker.FlushResize | apps/native/src/controller.rs:3286-3314 | While connected to a shell no size waits unless a resize is out |
| ShellWorker.Worker.ShellEnded | apps/native/src/controller.rs:3387-3399 | An ended shell leaves nothing buffered |
| ShellWorker.Worker.Adopt | apps/native/src/controller.rs:3029-3057 | The loop joins remembered shells unless known or unnamed, and keeps every shell in order |
| ShellWorker.Worker.Open | apps/native/src/controller.rs:3058-3099 | Opening creates, attaches or resizes as needed and keeps every shell in order |
| ShellWorker.Worker.Input | apps/native/src/controller.rs:3123-3138 | Input is taken whole, after what was taken before, or refused whole; never more than 1 MiB is held |
| ShellWorker.Worker.Resize | apps/native/src/controller.rs:3139-3148 | Only the newest size is sent or pending |
| ShellWorker.Worker.Restart | apps/native/src/controller.rs:3149-3184 | A restart clears the buffer, makes a new shell and keeps every shell in order |
| ShellWorker.Worker.Complete | apps/native/src/controller.rs:2758-2762 | An answer of an earlier connection or shell is only taken off the list; any other is followed up and keeps every promise |
| ShellWorker.Worker.TerminalDone | apps/native/src/controller.rs:3401-3494 | Each answer's follow-up restores order once its flag is lowered |
| ShellWorker.Worker.ReopenTerminals | apps/native/src/controller.rs:3497-3516 | The loop resumes shells on screen, restarts those without one, and keeps every shell in order |
| ShellWorker.Worker.TerminalsDisconnected | apps/native/src/controller.rs:3518-3541 | After a lost connection nothing is buffered or awaited |
| TypeGraph.CollectedIsBound | tools/go-capability-reference/main.go:97-143 | Every key collected is bound by a struct reached through pointers, arrays, map values, fields and names |
| TypeGraph.BoundIsCollected | tools/go-capability-reference/main.go:97-143 | Every key such a struct binds is collected, whatever cycles the declarations form |
| TypeGraph.FieldBinds | tools/go-capability-reference/main.go:113-139 | A field binds the name before its tag's first comma, never "-", and without one its exported names |
| TypeGraph.WalkFinishes | tools/go-capability-reference/main.go:97-143 | A walk covers every name it newly meets, in full |
| TypeGraph.ParamScan.Bind | tools/go-capability-reference/main.go:113-139 | Exactly the keys the field binds are added |
| TypeGraph.ParamScan.JsonTagsOf | tools/go-capability-reference/main.go:97-143 | The in-place walk ends on every table (unseen names, then expression size) and is the specified one |
| ChildProof.EachReportedChildHasOnePlace | apps/native/src/child_agents.rs:232-362 | Every id among the first 32 reports is shown exactly once, whatever the rows, and no other id is |
| ChildProof.DedupKeepsEachOnce | apps/native/src/child_agents.rs:237-242 | The deduplicated list has no two children with one id, none without, and every id reported |
| ChildProof.DedupTakesTheFirst | apps/native/src/child_agents.rs:237-242 | Each id is kept as it was first reported |
| ChildProof.EachNativeChildHasOnePlace | apps/native/src/child_agents.rs:232-362 | Each child of a list, by its position, is shown exactly once |
| ChildProof.EachSessionHasAtMostOnePlace | apps/native/src/child_agents.rs:260-360 | A session is shown once if it has a receipt or is among the first 32 others whose parent this is, else not at all |
| ChildProof.NamedChildIsUnderItsTool | apps/native/src/child_agents.rs:290-297 | A child that names a tool call is never shown under another |
| ChildProof.FallbackIsAllOrNone | apps/native/src/child_agents.rs:301-346 | The order fallback places every unnamed child or none |
| ChildProof.FallbackPicksTheLatestCall | apps/native/src/child_agents.rs:315-346 | Each goes to the latest free Agent call made at or before it started |
| ChildPlaces.FallbackFiresIff | apps/native/src/child_agents.rs:301-346 | The children that name no call are placed if and only if there is one idle Agent call for each and each started at or after its call and before the next; then each is under its own |
| ChildPlaces.NamedChildIsShownIff | apps/native/src/child_agents.rs:258-298 | A child that names a call is shown under it if and only if some subagent row of that id is no repetition of an earlier receipt |
| ChildPlaces.SessionIsUnderItsFirstReceipt | apps/native/src/child_agents.rs:258-289 | A session is shown under the call of its first receipt, and under no other |
| ChildPlaces.UnanchoredKeepsOrder | apps/native/src/child_agents.rs:347-362 | Unanchored children keep their order: the provider's as reported, then sessions as the fleet lists them |
| ChildProof.ClaimsTimes | apps/native/src/child_agents.rs:260-298 | A row claims a session by its first receipt, and a child from the first row that handles the call it names |
| ChildProject.Project | apps/native/src/child_agents.rs:231-362 | The loops compute exactly that placement |
| ChildProject.NativeChildren | apps/native/src/child_agents.rs:237-257 | Of the first 32 reports: no two with one id, none without, every id reported |
| ChildProject.ClaimRows | apps/native/src/child_agents.rs:258-298 | Receipts and exact anchors, row by row, second receipts skipped |
| ChildProject.GroupedLists | apps/native/src/child_agents.rs:283-297 | A tool call's list holds the children placed there, in order |
| ChildProject.OverviewAnchor | apps/native/src/child_agents.rs:368-387 | The last timed row before the first later one, or the first row |
| ChildProject.AnchorPrecedesTheStart | apps/native/src/child_agents.rs:364-387 | With row times rising that is the last row made at or before the start |
| ChildProject.RememberClear | apps/native/src/child_agents.rs:485-498 | The newest 512 clear marks are kept |
| RequestProof.WritesAreNeverRecalled | apps/native/src/controller.rs:1143-1177 | Within its connection a write on its way keeps its slot and is never aborted, in every run |
| RequestProof.OnlyItsAnswerEndsAWrite | apps/native/src/controller.rs:1143-1195 | No step but its own answer ends it, and that answer is the hub's |
| RequestProof.EveryCompletionLeavesItsReceipt | apps/native/src/controller.rs:2379-2402 | Every archive and project-touch request that completes in its connection leaves one receipt of its own number, in any order, the newest 128 kept |
| RequestProof.WriteAcrossAConnectionStrandsItsSlot | apps/native/src/controller.rs:2291-2302 | A write asked for while the hub was away and still out when it returns strands its slot until the connection ends |
| RequestProof.OnlyAConnectionStrands | apps/native/src/controller.rs:1715-1724 | A loading slot is without an answer to come if and only if something was loading when its connection started |
| RequestLaws.AskIsTakenIff | apps/native/src/controller.rs:1125-1238 | A request is taken unless it is off screen, its method cannot be called now, or a write of its kind is on its way; then it has the next number and its slot, and no other slot moves |
| RequestLaws.OnlyTheNewestGoesOn | apps/native/src/controller.rs:1179-1195 | In every run, of two requests of a kind out at once, and not queued, one is aborted |
| RequestLaws.QueuedRunsToItsEnd | apps/native/src/controller.rs:1179-1195 | In every run a queued request is never aborted |
| RequestLaws.AnswerSettlesItsSlot | apps/native/src/controller.rs:2290-2413 | An answer settles the slot that waits for it with its outcome and no other; a late or superseded one settles none |
| RequestLaws.LostConnectionFailsWhatWasLoading | apps/native/src/controller.rs:1715-1724 | A lost connection fails exactly the slots that were loading |
| RequestLaws.SelectForgets | apps/native/src/controller.rs:1544-1556 | Selecting empties the slots of what the session shows, recalls what they waited for, and touches no other |
| RequestProof.StepKeeps | apps/native/src/controller.rs:1125-1232 | Every step keeps writes in their slots and aborts where they belong |
| RequestTable.Table.Accept | apps/native/src/controller.rs:1179-1238 | The request gets the next number and its slot, and every write on its way is spared |
| RequestTable.Table.Request | apps/native/src/controller.rs:1125-1177 | The refusals come first and change nothing; no write on its way is superseded |
| RequestTable.Table.Complete | apps/native/src/controller.rs:2290-2413 | A late or superseded completion settles nothing; receipts are the newest 128 due, and every other write is spared |
| RequestTable.Table.Disconnected | apps/native/src/controller.rs:1719-1724 | No slot is loading after a lost connection |
| RequestTable.Table.Select | apps/native/src/controller.rs:1544-1556 | Selecting forgets the session's own views and recalls no write |
| Documents.HeldIsTheNewestOfTheConnection | apps/native/src/controller.rs:1572-1632 | Within a connection the document held is the first of the highest version received since it began, whatever was held before |
| Documents.OrderAndRepeatsDoNotMatter | apps/native/src/controller.rs:1572-1632 | The same documents in any order and number leave the same one held |
| Documents.KeptOrNewer | apps/native/src/controller.rs:1572-1632 | Later documents replace only older ones |
| Documents.TakenIff | apps/native/src/features.rs:1654-1684 | A connection's first value is taken if and only if it has a version and the document's parts are objects |
| Documents.NothingReceivedNothingChanges | apps/native/src/features.rs:1654-1684 | Answers that are not the document change nothing |
| Documents.Desk.Newest | apps/native/src/controller.rs:1572-1632 | What a desk holds of a document is the first of the highest version received in this connection |
| Documents.Desk.Connected | apps/native/src/controller.rs:1756-1758 | A connection starts a new story: all three take their next document whatever its version |
| Documents.Desk.ApplyArchive | apps/native/src/controller.rs:1572-1589 | The archive stays what came of everything received |
| Documents.Desk.ApplyUnseen | apps/native/src/controller.rs:1593-1610 | The marks stay what came of everything received |
| Documents.Desk.ApplyOpen | apps/native/src/controller.rs:1615-1632 | The open set stays what came of everything received |
| Documents.Desk.RequestDone | apps/native/src/controller.rs:2320-2333 | Exactly the named replies are taken in as each document |
| Documents.Desk.Changed | apps/native/src/controller.rs:1842-1853 | Exactly the named events are taken in as each document |
| Palettes.ParseUndoesHex | apps/native/src/appearance.rs:569-598 | A written colour reads back as itself if and only if it fits its digits |
| Palettes.ShortFormDoubles | apps/native/src/appearance.rs:585-589 | A three-digit colour is the six-digit one with each digit doubled |
| Palettes.CaseDoesNotMatter | apps/native/src/appearance.rs:576-598 | Capitals read as small letters do |
| Palettes.ReadAsTyped | apps/native/src/appearance.rs:576-598 | Blanks around a colour and marks before it do not matter; three, six and, with alpha, eight digits are read, and six are opaque |
| Palettes.GetPut | apps/native/src/appearance.rs:509-566 | A slot written reads back and no other slot moves |
| Palettes.KeysDiffer | apps/native/src/appearance.rs:509-566 | Two keys never share a slot |
| Palettes.EverySlotHasItsKey | apps/native/src/appearance.rs:509-566 | Every slot has its key |
| Themes.SetColorIsShown | apps/native/src/appearance.rs:734-768 | A colour set is shown if and only if it fits the slot's digits or is the base's own |
| Themes.SetColorLeavesTheOthers | apps/native/src/appearance.rs:752-768 | Setting one colour moves no other |
| Themes.RestoreShowsTheBase | apps/native/src/appearance.rs:752-768 | Restoring shows the base's colour |
| Themes.SetColorStoresOnlyChanges | apps/native/src/appearance.rs:752-768 | Setting a colour keeps every stored colour readable and not the base's if and only if it fits its slot's digits or is the base's own |
| Themes.SamePaletteSameColors | apps/native/src/appearance.rs:734-768 | On one base, equal palettes mean equal stored colours |
| Themes.Pigeonhole | apps/native/src/appearance.rs:823-838 | Among more labels than themes one is free |
| Themes.CustomTheme.ShownPalette | apps/native/src/appearance.rs:734-750 | The loop shows each stored colour that can be read, else the base |
| Themes.CustomTheme.SetColor | apps/native/src/appearance.rs:752-768 | A change is stored in full, the base's own value is not |
| Themes.CustomThemes.FreshName | apps/native/src/appearance.rs:823-834 | The name loop ends with a name no theme has |
| Themes.CustomThemes.FreshId | apps/native/src/appearance.rs:835-838 | The id loop ends with an id no theme has |
| Themes.CustomThemes.Create | apps/native/src/appearance.rs:814-844 | A fork of the theme in use under a name and id of its own; ids stay unique and the active one valid |
| Themes.CustomThemes.Remove | apps/native/src/appearance.rs:847-855 | Only that theme goes; ids stay unique and the active one valid |
| HistoryProof.GroupsPartitionTheEntries | apps/native/src/history.rs:65-118 | The rows of all groups are the entries, as a multiset |
| HistoryProof.EveryGroupIsRight | apps/native/src/history.rs:65-118 | Keys are unique; each group shows what files under its key, with the true count and newest time |
| HistoryProof.RowsRunNewestFirst | apps/native/src/history.rs:104-109 | The rows of every group run newest first, and those of one time as reported |
| HistoryProof.GroupsRunInOrder | apps/native/src/history.rs:110-116 | Groups run by newest activity, folderless last, then by name, then by path |
| HistoryProof.SearchOnlyLeavesOut | apps/native/src/history.rs:205-230 | A search keeps, in order, groups with a row that answers, showing just those rows, totals unchanged |
| HistoryPlaces.PlaceIsRight | apps/native/src/history.rs:121-165 | Every directory is filed where it belongs: with a saved project exactly when one claims it, the directory's own before the most specific holder or a namesake; else by itself |
| HistoryPlaces.RowsAreWhereTheyBelong | apps/native/src/history.rs:79-103 | Every row of every group is where the home of its lineage belongs, or its own folder when none is known |
| HistoryProof.HitPlacesAll | apps/native/src/history.rs:217-229 | A group is kept if and only if one of its rows answers |
| HistoryProof.HitPlacesRise | apps/native/src/history.rs:217-229 | Kept groups stay in their order |
| HistoryProof.SearchTwiceIsSearchOnce | apps/native/src/history.rs:205-230 | Searching a result again finds it again |
| History.Holder | apps/native/src/history.rs:150-162 | A saved project that holds the folder, and none that does is more specific; none only if none does |
| History.HolderIsTheLast | apps/native/src/history.rs:150-162 | Of several as specific it is the last listed |
| History.KeysTellPlacesApart | apps/native/src/history.rs:83 | A key names one kind and one path |
| History.FoldersOf | apps/native/src/history.rs:66-78 | The loop collects exactly those folders |
| History.FoldersOnce | apps/native/src/history.rs:66-78 | Each comes of an entry run in it directly and is the same directory as none before it; every such entry's directory is among them |
| History.FoldersAreDistinct | apps/native/src/history.rs:66-78 | No folder is listed twice when a key names its own directory |
| History.GroupEntries | apps/native/src/history.rs:65-118 | The loops compute exactly those groups |
| Sorting.SortIsStable | apps/native/src/history.rs:104-109 | A stable sort leaves ties as they were |

## Left out

- BusPromises.AtMostOnce: call ids are unbounded here; the 64-bit counter's wrap-around is not modelled.
- DiffMeaning.ParseUndoesPrint: files are within 2^32 - 2 lines, so the 32-bit counters never wrap; lines hold no line feed; extra header lines between files do not begin with `@@ `.
- Projects.StepKeeps: an identity change is taken as already normalised, a field is a string or unset; fetching its icon happens before the lock and is not modelled.
- Projects.NoLostUpdate: a save takes effect before its round's lock is released and no other process writes the map, as apps/native/src/backend.rs:18-27 itself assumes; a directory is an identity and a spelling, standing for `same_dir`, and the configured-directory and legacy lists are not kept.
- ShellPromises.LastSizeIssuedIsTheSize: speaks of sizes issued, not applied: a resize that is lost with its connection is not sent again by the code. Nothing is known of a remembered shell's size until its first resize.
- ShellRuns.StepKeeps: shell events come only over a live connection, which BusPromises.EveryRunTellsTheStory proves of the bus; the retired-shell set, the output feed and subscriptions are not kept.
- Transcripts.ReplayShowsTheLog: a transcript is the list of items pushed since its snapshot and a cursor; how items fold into display rows, byte trimming and stable row keys are not modelled.
- ConversationProof.StepKeeps: poll pacing, push readiness, notices and child status are not modelled; children are read whole.
- Echo.TidySendsAreSafe: rows only grow and an anchor is a row's index; trimming rows from the front is not modelled.
- EchoLimits.UntidySendCanDoubleAcknowledge: needs room for a second waiting send, so at most 30 waiting; with 31, UntidySendIsAcknowledgedEarly still shows the harm of the one send that fits.
- TaskPanel.StepKeeps: one log at a time, followed or not; a task that ended writes no more; UTF-16 files and the daemon's own refusals are not modelled, and text decoded from inside a character is arbitrary.
- ChildProject.Project: a child is named by its origin; labels, telemetry merging, `ClearMark::covers` and status words are display details.
- RequestProof.EveryCompletionLeavesItsReceipt: request values, the values kept on screen during a re-read, and requests issued by a completion itself are separate steps or left out.
- Documents.OrderAndRepeatsDoNotMatter: equal versions must mean equal documents, as the hub promises.
- HistoryProof.EveryGroupIsRight: path helpers (`project_key`, `same_dir`, `worktree_repo`, `basename`, lower-casing) are arbitrary functions; the text matching of a search is an arbitrary predicate of a row and its group.
- Themes.SamePaletteSameColors: colours only; corner radii and shadows follow the base and the corner choice.
- TypeGraph.BoundIsCollected: matching of keys without regard to case happens downstream; whether a name is exported is given with the name.
- Sockets, TLS, timers and channels are steps taken in any order over bounded queues; JSON, base64 and image decoding, topic strings and federation filters are not modelled.
- `Log::lines`, `status_letter`, contrast, labels, notices and other display text: settled by reading one branch.
- The fixture hub apart from its bounded log read, live and host process lifetime, launch, handoff, jobs and elicitation.
- A stream of resets or overflows without end: the code only promises another read each time.
