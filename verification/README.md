# A verified model of the harness's state machines

The harness runs chats inside an enclave. This project models the parts of it that are state
machines and small protocols, and proves what they promise over every run.

- **A run's log and its stream** (`Events`, `Timeline`, `Transcript`, `CallTranscript`, `StoryTranscript`,
  `RunLog`, `Checkpoint`, `Stream`, `StreamRuns`, `Budgets`, `Follow`, `FrameLog`, `WireLog`, `WireCodec`). A run's events are framed, adjacent text deltas are held and
  joined, an over-budget log is folded into a checkpoint, and followers read it from cursors and
  resume. The meaning of a log is what a client shows of it (`Checkpoint.Take`): the kept events in
  order with each message's text and reasoning and each call's arguments, the assembled messages,
  and each tool's progress, output and display, patched by add and replace as sections 4.1 and 4.3
  of RFC 6902 say. The window's timer is a choice made at every step. `FrameLog` is the same log
  over byte buffers that are lent, retired and zeroed, and `WireLog` proves that it decodes to the event log.
  The three transcripts say what assembled messages are from the events alone.
- **The live-run registry** (`Registry`, `RegistryInvariant`, `RegistrySteps`, `RegistryMoves`,
  `RegistryRuns`, `RegistryStops`, `LiveRuns`). Each region under the registry's lock is one step; `AcceptTurn`,
  `launch` and `finishRun` are programs of several that interleave with every request.
  `LiveRuns` is the registry as maps and sessions changed in place, each method proved to be its step.
- **Publication of the search index** (`SearchIndex`, `SearchCoverage`, `SearchTaking`, `SearchWriter`,
  `SearchProtocol`, `SearchSafety`, `SearchRuns`, `SearchForgets`, `SearchCache`). Replicas merge batches of chat
  writes and publish by compare-and-swap; every read, save, publication, lost answer, rebuild and key
  change is a step of its own. The control plane's log of chat writes says what an index should hold.
- **Archives** (`BackupPaths`, `BackupNames`, `Backup`, `BackupWriting`, `CloudImport`, `CloudImportRuns`,
  `ImportCounts`, `Scratch`). A backup as it is written against a restore's own checks; an import run twice; the
  temporary space requests share.
- **Encodings and scanners** (`Canonical`, `CanonicalDecoding`, `JsonObject`, `Chunks`, `EntryIndex`).

Code that changes things step by step is a class or a method with loops, proved equal to a function
of values; the laws are lemmas about those functions.

## Model

| member | source | states |
|---|---|---|
| Timeline.ExtendedJoins | internal/domain/timeline.go:69-95 | two deltas of one kind in a row extend the same block, whatever the block's place and time, as their joined text would |
| Timeline.ExtendedSplits | internal/domain/timeline.go:69-95 | a delta cut in two at one time leaves the same timeline, block boundaries, late reasoning and end times included |
| Timeline.ApplyValid | internal/domain/timeline.go:97-151 | every event keeps the assembler's maps and timelines consistent: a call's block is where its reference says |
| Timeline.ApplyJoins | internal/domain/timeline.go:97-151 | applying two adjacent deltas to one target is applying their join, for text, reasoning and call arguments |
| Timeline.ApplySplits | internal/domain/timeline.go:97-151 | applying a delta is applying its two parts at the same time |
| Timeline.StreamedSplits | internal/domain/timeline.go:69-95 | the same for one message's streamed text, whether or not it continues the last block |
| Timeline.MessageAssembler.Seed | internal/domain/timeline.go:36-46 | a continued reply becomes the assembler's message, its timeline sealed but for a trailing content block |
| Timeline.MessageAssembler.Extend | internal/domain/timeline.go:69-95 | a message's blocks after a delta, changed as the source changes them, are the specified ones |
| Timeline.MessageAssembler.AddStreamed | internal/domain/timeline.go:69-95 | streamed text changes the assembler as the specification says and nothing else |
| Timeline.MessageAssembler.ApplyEvent | internal/domain/timeline.go:97-151 | the assembler after an event, in place, is the specified assembly, whose blocks AssembledTells, AssembledCallTells and AssembledStory tell from the events |
| Timeline.MessageAssembler.Collect | internal/domain/timeline.go:189-195 | the messages, in the order they began |
| Transcript.ApplyTells | internal/domain/timeline.go:97-151 | one event adds its text to its message and its last content block, its reasoning to the last reasoning, and its arguments to its call's block, and nothing else |
| Transcript.AssembledTells | internal/domain/timeline.go:69-151 | whatever the events, a message's content is the text sent to it in order, its blocks say the same, its reasoning blocks the reasoning in order, late reasoning included, and a call's arguments are those since it started |
| Transcript.RunTells | internal/engine/stream.go:240-262 | for every schedule of holds and folds, the messages a run's assembler holds say just what the run emitted, content, content blocks, reasoning and arguments, for a new reply or a continued one |
| CallTranscript.AssembledCallTells | internal/domain/timeline.go:103-149 | whatever the events, a call has a block exactly if it started, and the block tells the frames since its last start: name and start time are the start's, arguments the deltas joined, complete exactly if an end came, the result the last result's, the end time that of the last result not before the start, metadata and display the last given, progress the output lines added in order |
| CallTranscript.CallTells | internal/domain/timeline.go:115-149 | one event more keeps the block telling its call's events, field by field |
| CallTranscript.EndIsLastResult | internal/domain/timeline.go:122-137 | with a clock that does not run back, a call's result and end time are those of its last result |
| CallTranscript.RunCallTells | internal/engine/stream.go:240-262 | the same of the blocks a run's assembler holds, for every schedule of holds and folds |
| StoryTranscript.ExtendedTells | internal/domain/timeline.go:69-95 | a delta goes to the last block of its kind, to the reasoning before the text if it is late, or opens a block, sealed blocks apart, and every block still tells the deltas it was given and their times |
| StoryTranscript.AssembledStory | internal/domain/timeline.go:48-114 | whatever the events, the messages, their order, dates and timelines are those of a story that keeps the frames themselves: each block's text is its deltas, late reasoning last, and a timed block of thinking ends at its last delta |
| StoryTranscript.RunStory | internal/engine/stream.go:240-262 | the same of what a run's assembler holds, for every schedule of holds and folds, for a new reply or a continued one |
| StoryTranscript.ThinkingIsTimed | internal/domain/timeline.go:69-96 | with a clock that does not run back, a new reply's thinking block starts at its first delta and ends at its last, late reasoning apart, and its duration is the difference in seconds |
| StoryTranscript.DatedByFirst | internal/domain/timeline.go:48-66 | a new reply has a message exactly for each id an event adds to, dated by the first event that does |
| StoryTranscript.OrderedByFirst | internal/domain/timeline.go:48-59 | messages come in the order they were first added to, each once |
| StoryTranscript.ContinuedKeeps | internal/domain/timeline.go:36-66 | whatever events follow, a continued reply keeps its date and every block it had, but for a trailing block of content, which only grows |
| StoryTranscript.ContinuedExtends | internal/domain/timeline.go:36-95 | the first text of a continued reply goes into its trailing block of content |
| RunLog.FoldCommutesWithDecoding | internal/engine/runlog.go:106-162 | a fold of encoded frames decodes to the fold of what they decode to: the checkpoint's shape depends on kinds, keys and sizes alone |
| Checkpoint.RunMerges | internal/engine/stream.go:115-129 | a run of deltas to one target, merged into its first and last frame, shows a client what the whole run shows |
| Checkpoint.FoldKeepsTexts | internal/engine/runlog.go:106-162 | a checkpoint keeps the kept events in order, every message's text and reasoning and every call's arguments |
| Checkpoint.FoldedToKeepsTools | internal/engine/runlog.go:106-162 | a checkpoint's one report of each tool call shows the progress, output and display of all it replaces |
| Checkpoint.FoldKeepsMeaning | internal/engine/runlog.go:106-162 | a client that starts from nothing shows the same of a checkpoint as of the frames folded into it |
| Streaming.TrackedIsShown | internal/engine/stream.go:66-109 | what the stream keeps of tool activities is what a client shows of the reports, so its frame for a call stands for them all |
| Streaming.Stream.Track | internal/engine/stream.go:66-95 | the stream's activities after an event, in place, are the specified ones |
| Streaming.Stream.Write | internal/engine/stream.go:240-262 | a frame is logged, tracked and observed, and folds the log when FoldsOverBudget says, as specified |
| Streaming.Stream.FramePending | internal/engine/stream.go:230-238 | the held deltas are framed as one, at the time of the last of them, and nothing is held after |
| Streaming.Stream.FrameEvent | internal/engine/stream.go:199-228 | an event is joined to what is held, held, or framed after it, as specified |
| StreamRuns.StepInv | internal/engine/stream.go:199-262 | every step of a run keeps: the log shows what was framed, what was framed with what is held is the events with adjacent deltas joined, the observer has seen it all |
| StreamRuns.RunInv | internal/engine/stream.go:199-262 | the same after any sequence of emits, holds, timer firings, folds and ends |
| StreamRuns.JoinCoalesced | internal/engine/stream.go:199-228 | a delta joined to the held one leaves the run coalesced |
| StreamRuns.CoalescingRefines | internal/engine/stream.go:199-262 | for every schedule, framed and held events are those the run was given to emit, in order, nothing lost, with only adjacent deltas to one target joined, and the messages and every client's view are those of every emitted event by itself |
| StreamRuns.HistoryIsEmitted | internal/engine/stream.go:199-228 | the groups the frames are joined from are, in order, exactly the events emitted while the log was open that encode |
| StreamRuns.CheckpointKeepsMeaning | internal/engine/runlog.go:106-162 | after any sequence of emits and folds, checkpoint, frames and what is still held show a client starting from nothing what every emitted event shows |
| Budgets.FoldsOverBudget | internal/engine/stream.go:240-262 | a write folds the log exactly when the reply streams, the log is open and the sizes of the frames since the last fold, with the new one, sum to more than the budget; else it is the open log's last frame, and what is left never sums to more than the budget |
| Budgets.RunMeasured | internal/engine/runlog.go:90-98 | throughout a run the log's count is the sum of the sizes of its frames since the last fold |
| Budgets.RunHeldFits | internal/engine/stream.go:199-228 | what is held together is never longer than a merged frame may be, unless it is one delta |
| Budgets.WindowHolds | internal/engine/stream.go:199-228 | a delta in the window after one to its target is held, or joins what is held if it fits, and nothing is framed |
| Budgets.OutsideNothingWaits | internal/engine/stream.go:199-228 | outside the window with nothing held a delta is framed at once, and any other event leaves nothing held |
| Budgets.RunFolds | internal/engine/runlog.go:106-162 | deltas to one target that fit in a merged frame leave at most two frames of a checkpoint |
| Budgets.CheckpointFits | internal/engine/runlog.go:130-138 | however much is folded, no delta of a checkpoint is merged past the length a merged frame may have, if merging lengthens nothing |
| Budgets.OneReportEach | internal/engine/runlog.go:141-155 | a checkpoint holds at most one report of each tool call, however many were folded |
| Following.ReadIsExact | internal/engine/runlog.go:255-278 | corollary of RunInv: a reading from a cursor is every later frame once and in order, after the whole checkpoint exactly when a fold passed the cursor |
| Following.DeliveredShows | internal/engine/stream.go:324-375 | however many events of a reading arrive before the stream is lost, the client shows every frame up to the last cursor it saw |
| Following.WatchedAllInv | internal/engine/stream.go:324-375 | the same through any interleaving of grows, folds, readings and lost streams |
| Following.FollowerSeesEverything | internal/engine/follow.go:103-115 | every cursor a follower saw is one ResumeFrom accepts, and its next whole reading leaves it at the cursor after the last, showing every frame, and with what is held every event emitted |
| Following.ResumesAfterSent | internal/engine/follow.go:103-115 | after any run, a resumption is accepted exactly without a cursor or with that of an event the run framed, folded or not, and goes on with the next event |
| Following.SentUnchangedByFold | internal/engine/runlog.go:281-285 | a fold leaves the cursor after the last frame where it was |
| FrameLogs.FoldEntries | internal/engine/runlog.go:106-162 | the fold loop over buffers gives the specified checkpoint, and every buffer given or made is in it or dropped, once |
| FrameLogs.FreeRetired | internal/engine/runlog.go:166-185 | exactly the frames retired up to the oldest loan are zeroed, and no other byte changes |
| FrameLogs.FrameLog.Grow | internal/engine/runlog.go:90-98 | the frame is the log's last and the log's own, unless it is closed; its length is added to the count, and the answer is whether the count exceeds the budget |
| FrameLogs.FrameLog.Fold | internal/engine/runlog.go:106-162 | the log's bytes become the folded log's, what it drops is retired, and loans are untouched |
| FrameLogs.FrameLog.Reclaim | internal/engine/runlog.go:166-185 | reclaiming keeps every invariant and what the log shows |
| FrameLogs.FrameLog.Wipe | internal/engine/runlog.go:205-218 | wipes everything exactly when the log has ended and nothing drains or holds it |
| FrameLogs.FrameLog.Detach | internal/engine/runlog.go:195-203 | the last stream to leave an ended log zeroes every byte |
| FrameLogs.FrameLog.Close | internal/engine/runlog.go:240-250 | a closed log shows what it did, or is zeroed if nothing drains or holds it |
| FrameLogs.FrameLog.Read | internal/engine/runlog.go:255-278 | returns the specified checkpoint and frames, on loan |
| FrameLogs.FrameLog.Done | internal/engine/runlog.go:260-278 | the loan ends and the log shows what it did |
| FrameLogs.FrameLog.EndedLogIsZeroed | internal/engine/runlog.go:205-218 | once the log has ended, undrained and not held, every byte of every frame it accepted or made is zero |
| FrameLogs.FrameLog.LoanStaysIntact | internal/engine/runlog.go:166-185 | no byte returned by Read is zeroed before its done |
| FrameLogs.FrameLog.OwnedOnce | internal/engine/runlog.go:166-218 | a wiped frame is in no checkpoint, frame list or retired list |
| FrameLogs.FrameLog.AcceptedAreOwned | internal/engine/runlog.go:106-232 | every frame accepted or made is live, retired or wiped |
| WireLog.OpsCarry | internal/engine/stream.go:97-129 | merging deltas as bytes, and an activity's encoded frame, do on bytes what a fold does on events, up to decoding |
| WireLog.WriteBytes | internal/engine/stream.go:240-262 | a frame written as bytes, and the fold it may bring, leave a byte log that decodes to the event log |
| WireLog.Replay | internal/engine/stream.go:199-262 | through any run interleaved with streams that attach, read, keep loans open across folds, return them and leave, the log of buffers decodes to the event log of the run's actions, until it has ended, undrained and not held, and is zeroed |
| WireLog.Lend | internal/engine/runlog.go:255-278 | what Read lends decodes to the event log's reading from the cursor, whatever was folded |
| WireCodec.LawsCanBeMet | internal/domain/events.go:204-220 | some codec and measure of frames meet every law asked of encoding, decoding and merging |
| RegistryInvariant.RunStepInv | internal/engine/start.go:258-318 | starting, ending and closing steps of one run keep the registry's invariant |
| RegistryInvariant.AdvanceClears | internal/engine/live.go:246-264 | an advance that does not go on ends the queue and leaves the registry sound |
| RegistryInvariant.AdvancePromotes | internal/engine/live.go:246-264 | an advance that goes on gives the slot to the first in the queue, forgets the run, and leaves the registry sound |
| RegistrySteps.AdmitInv | internal/engine/accept.go:219-266 | an admitted turn opens its chat or waits in it, within the bound, and the invariant holds |
| RegistrySteps.SendInv | internal/engine/queue.go:35-62 | moving a queued turn first keeps the invariant |
| RegistrySteps.StopEachInv | internal/engine/queue.go:100-159 | stopping any chats in any order keeps the invariant |
| RegistrySteps.ShutdownInv | internal/engine/shutdown.go:13-27 | shutting down every chat, in any order, leaves every queue empty and the invariant |
| RegistrySteps.TransferIsUnregistered | internal/engine/transfer.go:76-96 | corollary of the invariant: a chat that may be moved is not registered, so a tombstone replaces nothing |
| RegistrySteps.StepInv | internal/engine/live.go:122-289 | every step of every program keeps the registry's invariant |
| RegistryMoves.StepMoves | internal/engine/finish.go:17-167 | every step moves each turn at most one place along its lifecycle, and never takes back a cancel, a yield, a close or a start |
| RegistryMoves.StepQueues | internal/engine/live.go:246-289 | the only changes to a chat's slot and queue: joining last, the first taking the slot, one leaving, one moved first, or all ending; a session stays its caller's and its chat's, is deleted by a stop alone, and a new one is opened by the turn admitted to it or by a transfer |
| RegistryRuns.ReachableRegistry | internal/engine/live.go:122-289 | in every reachable state the runs map is exactly what registered chats hold, once each; queues are bounded, repeat nothing and wait behind an active run; registered chats are busy or tombstones; no two turns run in one chat or live under one request |
| RegistryRuns.HistoryInv | internal/engine/live.go:122-289 | the invariant holds in every reachable state of every interleaving |
| RegistryRuns.RunsAreHeldOnce | internal/engine/live.go:122-129 | the runs map holds exactly the active and queued runs of registered chats, each in one place |
| RegistryRuns.OneActivePerChat | internal/engine/start.go:186-318 | corollary of the invariant: two runs of one chat never both lie between the start of launch and the commit |
| RegistryRuns.QueuedBehindActive | internal/engine/queue.go:35-62 | corollary of the invariant: a queued turn has an active run ahead of it, so SendQueued's dereference is safe; no queue exceeds the bound |
| RegistryRuns.RegisteredIsBusy | internal/engine/live.go:268-275 | corollary of the invariant: every registered chat is busy or a transfer's tombstone |
| RegistryRuns.OneRunPerRequest | internal/engine/accept.go:22-88 | corollary of the invariant: one client request has at most one live turn |
| RegistryRuns.HistoryMoves | internal/engine/accept.go:85-115 | closes and events only add up, and a turn keeps its request and chat for good |
| RegistryRuns.ClosedOnce | internal/engine/finish.go:17-167 | accepted and Finished are each closed at most once, exactly one terminal event ends a turn whichever way it ends, and an ended or refused turn stays so |
| RegistryRuns.StartsInOrder | internal/engine/live.go:246-264 | a turn does not start while one ahead of it waits, unless it is sent |
| RegistryRuns.SentIsNext | internal/engine/queue.go:35-62 | after SendQueued a turn stays first while it waits and no other is sent, and the chat's next advance starts it |
| RegistryRuns.SendStops | internal/engine/queue.go:35-62 | corollary of the step: sending a turn has the running reply yield, and stop unless it is already ending |
| RegistryRuns.CancelStops | internal/engine/queue.go:11-32 | corollary of the step: a cancel ends a waiting turn, tells a running one to stop and leaves one that is ending |
| RegistryRuns.StopStops | internal/engine/queue.go:148-159 | corollary of the step: a stopped chat is deleted, its reply told to stop, its queue ended, and it leaves the registry unless its reply still runs |
| RegistryRuns.AdvancePicksNext | internal/engine/live.go:246-264 | corollary of StepQueues and the invariant: an advance of a chat whose running reply yields starts the first in its queue |
| RegistryRuns.CommitDecides | internal/engine/finish.go:135-139 | a commit ends the whole queue if the run was stopped and did not yield, and otherwise starts its first and leaves the rest |
| RegistryRuns.CancelEndsQueue | internal/engine/finish.go:23-27 | a started run cancelled before it began to end, and not told to yield, ends every queued turn unstarted |
| RegistryRuns.NothingStartsAfterShutdown | internal/engine/shutdown.go:13-27 | after Stop no run starts, no turn is taken, and the working count only falls |
| RegistryStops.StopEachSelects | internal/engine/queue.go:100-159 | stopping the chats a condition selects leaves exactly this: each selected session deleted and emptied, its queued turns ended and unregistered, its reply told to stop, its chat unregistered unless the reply runs; every other session, turn, request and chat as it was |
| RegistryStops.StopThreadStops | internal/engine/queue.go:100-106 | StopThread does that to its chat and no other |
| RegistryStops.StopDeviceStops | internal/engine/queue.go:111-118 | StopDeviceThread does that to its chat if it is a device chat, and nothing otherwise |
| RegistryStops.StopDevicesStops | internal/engine/queue.go:123-141 | StopDeviceThreads does that to every device chat of the caller and to nothing else, in any order |
| RegistryStops.ShutdownStops | internal/engine/shutdown.go:13-27 | after Stop every active run is told to stop, every queued turn is ended, the chats stay registered, and nothing else changes |
| RegistryStops.OnlyItsOwnRequests | internal/engine/queue.go:35-97 | but for the stops, a turn is told to stop only by its own cancel or by a turn sent from its own chat's queue, which alone makes it yield |
| RegistryStops.NothingStartsOnceDeleted | internal/engine/start.go:255-280 | once a chat's session is deleted, none of its turns starts and none is admitted to it, for good |
| RegistryStops.CompactionNeverWaits | internal/engine/accept.go:219-266 | a compaction is admitted only to a chat with nothing running, and never queued |
| RegistryStops.HeldUnderItsCaller | internal/engine/accept.go:219-266 | whatever happens after its admission, a turn's session has the caller, the kind and the chat it was admitted under |
| RegistryStops.HeldWasAdmitted | internal/engine/accept.go:219-266 | in every reachable state each turn a session holds was admitted, under that session's caller, kind and chat |
| LiveRegistry.Index | internal/engine/queue.go:84-89 | where a run first stands in a queue; cutting there removes it |
| LiveRegistry.LiveRuns.RetireRun | internal/engine/live.go:246-264 | advance, in place, is the specified step, and returns the turn it starts |
| LiveRegistry.LiveRuns.StopChat | internal/engine/queue.go:148-159 | stop, in place, is the specified step |
| LiveRegistry.LiveRuns.RemoveWaiting | internal/engine/queue.go:84-96 | removeQueued, in place, is the specified step, and says whether the turn waited |
| LiveRegistry.LiveRuns.CancelTurn | internal/engine/queue.go:11-32 | CancelThread, in place, is the specified step; refused exactly when the run is ending or gone |
| LiveRegistry.LiveRuns.SendTurn | internal/engine/queue.go:35-62 | SendQueued, in place, is the specified step |
| LiveRegistry.LiveRuns.StopAll | internal/engine/shutdown.go:13-27 | the loop over the chats in any order halts exactly the registered chats, as ShutdownStops says, and is its step |
| LiveRegistry.LiveRuns.StopDeviceChats | internal/engine/queue.go:123-143 | the loop over the chats in any order stops exactly the caller's device chats, as StopDevicesStops says, and is its step |
| LiveRegistry.LiveRuns.StopThreadChat | internal/engine/queue.go:100-106 | stops the chat and no other, as StopThreadStops says |
| LiveRegistry.LiveRuns.StopDeviceChat | internal/engine/queue.go:111-118 | stops the chat if it is a device chat, as StopDeviceStops says |
| LiveRegistry.LiveRuns.RegisterTurn | internal/engine/accept.go:28-52 | a new request is registered, a known one answered with its live run, and a closing service refuses |
| LiveRegistry.LiveRuns.AdmitTurn | internal/engine/accept.go:219-266 | a turn joins exactly when every check passes, and a refusal changes nothing |
| SearchIndex.IsLiveSince | internal/search/stored.go:225-235 | the loop says whether every later counted write is in hand |
| SearchIndex.CoverThrough | internal/search/stored.go:172-175 | the covered revision is the last before the first gap in what was taken |
| SearchIndex.CoveredIsUnique | internal/search/stored.go:172-175 | corollary of the definition: there is one such revision |
| SearchIndex.MergeBatch | internal/search/stored.go:152-171 | the loop over a batch is its updates merged in turn, of which BatchTakes says what must be taken |
| SearchCoverage.LiveIsLatest | internal/search/stored.go:225-235 | an update trusted as live is its chat's latest write the control plane had counted |
| SearchCoverage.StoreOk | internal/search/stored.go:199-221 | storing a write keeps the chat exact if it was, and makes it exact if the write is the latest and taken |
| SearchCoverage.RemoveOk | internal/search/stored.go:239-254 | the same for a removal with a revision, whether or not the chat was found made again, and for one without that is harmless |
| SearchCoverage.UnnumberedKeeps | internal/search/stored.go:239-254 | a removal without a revision keeps an index exact if and only if the chat was found made again, the index does not hold it, or its latest write is past what the index covers |
| SearchCoverage.GoneIsHarmless | internal/search/stored.go:131-146 | a chat still gone when the publication is read is never dropped wrongly |
| SearchCoverage.MergeKeeps | internal/search/stored.go:152-171 | every update, but for a removal without a revision that is not harmless, keeps the index exact through the published revision and exact about every latest write taken |
| SearchTaking.LatestIsStored | internal/search/stored.go:199-221 | a store that is its chat's latest write, live or read back as current, with room for it, is counted with all it replaced and leaves the index exact about its chat, no other touched |
| SearchTaking.ReadDecides | internal/search/stored.go:199-221 | with a gap after it, a truthful read decides: the latest write is stored as above; an outdated one is handed back, its chat left alone if it still exists and dropped if it is gone |
| SearchTaking.LatestIsRemoved | internal/search/stored.go:239-254 | a numbered removal that is its chat's latest write is counted and leaves the chat out of the index, or is handed back if the chat is found made again |
| SearchTaking.OldRemovalKeeps | internal/search/stored.go:239-254 | a numbered removal a later store outdates does not undo what the index has of that store |
| SearchTaking.BatchTakes | internal/search/stored.go:152-171 | after a whole batch every update bound to be taken is counted, and the index is exact about its chat |
| SearchCoverage.CoveredIsGood | internal/search/stored.go:172-182 | corollary of MergeKeeps: what a batch leaves is exact through the revision its publication covers |
| SearchCoverage.GoodLater | internal/search/stored.go:102-191 | corollary of the definition: later writes take only their own chats out of what an index is exact about |
| SearchWriter.Writer.Add | internal/search/writer.go:65-73 | add, in place: one update per chat, the later revision's, standing for the other's writes |
| SearchWriter.Writer.TakeBatch | internal/search/writer.go:77-92 | the batch is the updates that waited, each once, sorted by revision then chat, and none waits |
| SearchWriter.Writer.Fold | internal/search/writer.go:115-122 | fold, in any order of chats, hands revisions only to a strictly later waiting write of their chat |
| SearchWriter.RevisionsConserved | internal/search/writer.go:65-122 | across any sequence of arrivals, batches and folds each revision that arrived is in one place with its own chat, as often as it arrived, and an update's own revision is the largest it stands for |
| SearchWriter.JoinedOk | internal/search/writer.go:65-73 | corollary of the definition: joined updates of counted writes stand for writes of their own chat no later than their own |
| SearchSafety.StepSound | internal/search/stored.go:102-191 | every step of every replica keeps: until a removal spoils one, a publication held complete is exact; always, entries are from real writes, and caches and batches are consistent |
| SearchSafety.SaveWork | internal/search/index.go:223-229 | an index saved as complete in an unspoiled run is exact through what it claims, by the record or by what this process published |
| SearchRuns.StepKeys | internal/search/index.go:178-221 | every step keeps: replicas hold different objects, none drops what another publishes, and the named object is there |
| SearchRuns.RunSound | internal/search/stored.go:102-191 | all of it in every reachable state |
| SearchRuns.CompleteIsExact | internal/search/stored.go:97-191 | in a run no unnumbered removal spoiled, whenever the record names an index published as complete, every chat whose latest write is at or below the covered revision is in it as that write left it, or absent if that write deleted it |
| SearchRuns.PublishedIsExact | internal/search/index.go:178-221 | the same of the index at the moment apply publishes it, and coverage does not go back |
| SearchRuns.SpoilsIsInexact | internal/search/stored.go:152-171 | merging an update into a complete index leaves it exact if and only if the step does not spoil, by a condition on the state before it |
| SearchRuns.SpoilNeedsRemake | internal/search/stored.go:131-146 | the first step to spoil needs a chat found gone and made again before the publication was read |
| SearchRuns.SpoiledBySteps | internal/search/stored.go:152-171 | a run is spoiled exactly when one of its steps spoiled it |
| SearchRuns.NamedIsKept | internal/search/index.go:178-221 | no step deletes the object the record names, lost answers included |
| SearchRuns.SupersededMayGo | internal/search/index.go:178-221 | an object replaced by an answered publication, and one whose publication was refused, is named no more and its publisher may delete it |
| SearchRuns.CompleteStaysComplete | internal/search/stored.go:179-182 | a batch merged into an index the record calls complete, and that could be read, is saved as complete, and one that could not be read is not |
| SearchRuns.CacheIsStored | internal/search/cache.go:71-136 | on every exit of apply the cached index is absent or the stored object its key binds, though it was changed in place |
| SearchRuns.CoverageGrows | internal/search/index.go:171-221 | coverage never goes back but when the caller's key changes |
| SearchForgets.UnnumberedRemovalForgets | internal/search/stored.go:129-182 | a run of two replicas, step by step, that ends with an index published as complete through a write and without the chat it made |
| SearchCache.FittedIsLongest | internal/search/cache.go:100-102 | eviction keeps the longest most recently used part that fits the budget |
| SearchCache.FittedKeepsFirst | internal/search/cache.go:89-103 | an index that fits at all is not evicted by its own arrival |
| SearchCache.IndexCache.Get | internal/search/cache.go:71-85 | returns the owner's index exactly when bound to the key, moved to the front; one bound to another is dropped |
| SearchCache.IndexCache.Put | internal/search/cache.go:89-103 | the owner has this index and no other, unless it exceeds the budget, and the rest is what fits |
| SearchCache.IndexCache.EvictOver | internal/search/cache.go:100-102 | the eviction loop leaves what fits, counted |
| SearchCache.IndexCache.PublishedComplete | internal/search/cache.go:107-113 | only the owner's entry bound to the key is marked, and completeAt then answers for it |
| JsonObject.ExtractFirstJSONObject | internal/domain/quirks.go:99-128 | the loop gives the specified extraction, and its negative-depth branch is unreachable |
| JsonObject.ValuePasses | internal/domain/quirks.go:105-126 | the scanner passes over every JSON value of RFC 8259 at any depth, with its strings, escapes and braces |
| JsonObject.ExtractsObject | internal/domain/quirks.go:99-128 | for every JSON object text and every tail, extraction returns exactly the object |
| JsonObject.ExtractedIsBalanced | internal/domain/quirks.go:99-128 | whatever is extracted is a prefix that opens and closes an object, balanced at its end and not before |
| Canonical.AllPrefixedInjective | internal/seal/ophash.go:123-129 | fields under 2^32 bytes are read back uniquely from their length-prefixed encoding |
| Canonical.CanonicalInjective | internal/seal/ophash.go:106-121 | two inputs have one encoding exactly when they are the same up to nil against empty, across the six, eight and nine field forms |
| CanonicalDecoding.SplitReads | internal/seal/ophash.go:123-129 | a decoder of length-prefixed fields gives back any fields under 2^32 bytes |
| CanonicalDecoding.CanonicalDecodes | internal/seal/ophash.go:106-121 | an encoding decodes to method, path, key, precondition, idempotency key and body in that order, then additional data and envelope exactly if one of the three optional fields is given, then the protocol |
| Canonical.WriteJSONString | internal/seal/aad.go:231-262 | the printing loop appends the specified text |
| Canonical.QuotedInjective | internal/seal/aad.go:231-262 | a printed string and whatever follows it are told apart, so printing is injective |
| Canonical.MarshalCanonical | internal/seal/aad.go:148-163 | the printing loop gives the specified object |
| Canonical.MarshalInjective | internal/seal/aad.go:148-163 | printed objects give back their fields |
| Canonical.PayloadInjective | internal/seal/aad.go:62-85 | payload data is equal exactly for the same user, row and scope |
| Canonical.WrapInjective | internal/seal/aad.go:93-119 | key-wrap data is equal exactly for the same user, row, scope and key |
| Canonical.BundleInjective | internal/seal/aad.go:127-141 | bundle data is equal exactly for the same user, key and credential |
| Canonical.FamiliesDisjoint | internal/seal/aad.go:62-141 | no byte string is data of two of the three families |
| CanonicalDecoding.PayloadText | internal/seal/aad.go:62-85 | refused exactly for an unknown scope, no user, no id, or a profile under another id; else the text is the object of the named members, written out in order |
| CanonicalDecoding.WrapText | internal/seal/aad.go:93-119 | the same for the key-wrap data, refused also for a key id that is not 32 lower-case hexadecimal digits |
| CanonicalDecoding.BundleText | internal/seal/aad.go:127-141 | the same for the bundle data, refused exactly without a user or a credential or for such a key id |
| CanonicalDecoding.KeysAreSorted | internal/seal/aad.go:56-141 | the keys of all three families come in byte order |
| Chunks.TruncateUTF8 | internal/search/chunks.go:109-121 | at most n bytes, never a split character, at most three bytes short of n, and with no room for the next character |
| Chunks.ValidCut | internal/search/chunks.go:109-121 | UTF-8 cut where a character starts is UTF-8 on both sides |
| Chunks.ChatChunks | internal/search/chunks.go:54-104 | terminates on all UTF-8; chunks are non-empty, at most 2000 bytes, split no character and are at most eight, and below the cap they restore the parts in order without the inserted newlines; no chunk had room for the first piece of the next, and a part that fits in a chunk is one piece |
| Chunks.NeighboursApart | internal/search/chunks.go:67-104 | so no two neighbouring chunks could have been one |
| EntryIndex.LowerBound | internal/importer/index.go:82-82 | the binary search finds the first entry that does not sort before the prefix |
| EntryIndex.ByPrefix | internal/importer/index.go:76-91 | the count is that of a scan of every entry, up to two, and a count of one names the one entry |
| Scratch.StepInv | internal/archives/scratch.go:116-217 | every call keeps: the weight taken is what leases and detached files hold, a lease holds what its files do, who waits holds nothing |
| Scratch.SpaceConserved | internal/archives/scratch.go:116-217 | in every reachable state the weight taken is the sum of what is held and fits the space |
| Scratch.AllGivenBack | internal/archives/scratch.go:165-217 | once every lease and detached file is released the whole space is free: each unit was given back once |
| Scratch.WaitersHoldNothing | internal/archives/scratch.go:116-140 | a request waits only while it holds nothing, so waits form no cycle |
| Scratch.WaitsEnd | internal/archives/scratch.go:116-140 | the first in line can be granted, or someone who does not wait holds space |
| Scratch.FreeIsTaken | internal/archives/scratch.go:116-140 | in every reachable state a request is taken exactly if that much is free and nobody waits, and too large exactly if it would not fit in the whole space with what its lease holds |
| Scratch.Space.Take | internal/archives/scratch.go:116-140 | each answer exactly when: too large if it could never fit beside what the lease holds, taken if it is free and nobody waits, else busy for a holder and a wait for another; and what each changes |
| Scratch.Space.WriteFile | internal/archives/scratch.go:201-209 | a write, in place, is the specified step |
| Scratch.Space.ReleaseLease | internal/archives/scratch.go:165-173 | a release, in place, is the specified step |
| Scratch.Space.DetachFile | internal/archives/scratch.go:177-180 | a detach, in place, is the specified step |
| Scratch.Space.ReleaseDetached | internal/archives/scratch.go:212-217 | a detached file's release, in place, is the specified step |
| BackupPaths.EntityIsNamed | internal/archives/backup.go:183-203 | a path built for a project or chat is allowed, safe, and read back as its kind |
| BackupPaths.DocumentIsNamed | internal/archives/backup.go:187-203 | the same for a project document |
| BackupPaths.ImageIsNamed | internal/archives/backup.go:191-203 | the same for an image's description and its bytes |
| BackupNames.AllowedExactly | internal/archives/backup.go:193-194 | a name is allowed exactly if it is the manifest's, the relationships', or an entity's, a document's or an image's of hexadecimal ids |
| BackupNames.NamesApart | internal/archives/backup.go:183-191 | entities, documents and images of different ids never share a name |
| BackupNames.ImageIdsApart | internal/archives/export.go:676-676 | an image's id tells its chat, its message and its attachment, though ids may hold slashes |
| BackupNames.PageIdsApart | internal/archives/export.go:704-704 | a page image's id tells its image and page, and is never an attachment image's |
| BackupNames.LimitIs | internal/archives/backup.go:247-270 | an image's bytes are bounded as an image, every other entry as a JSON entry |
| Backup.CheckEntries | internal/archives/restore.go:51-61 | accepts exactly entries that are safe, allowed, unrepeated and within the limits |
| Backup.CheckListed | internal/archives/restore.go:69-103 | accepts exactly a listing that matches the entries' kinds, sizes, hashes and images, and counts it |
| Backup.OpenNativeBackup | internal/archives/restore.go:35-111 | opens exactly the archives the acceptance conditions describe |
| BackupWriting.Writer.Add | internal/archives/backup.go:247-270 | writes and lists an entry exactly when it is not one too many, repeated or past a limit, that is when the entries with it still fit |
| BackupWriting.Writer.AddImage | internal/archives/export.go:661-672 | an image's two entries are written side by side exactly if they fit, counted once, and a link added |
| BackupWriting.Writer.BackupChat | internal/archives/export.go:651-733 | a chat is written exactly if no read of it fails and it fits; it adds exactly its readable images and itself, in order, each proper and counted, an omission for each attachment gone and page unreadable, and a link for each image |
| BackupWriting.Writer.BackupProject | internal/archives/export.go:533-560 | a project is written exactly if it fits; it adds exactly itself and its readable documents, counted and linked, and an omission for each unreadable one |
| BackupWriting.Writer.Close | internal/archives/backup.go:281-303 | a manifest written last makes the whole a backup a restore accepts, its own size within the limits |
| BackupWriting.Writer.WriteBackup | internal/archives/export.go:521-603 | a backup is finished exactly if no read fails and everything readable fits with its manifest; then a restore accepts it, it holds exactly an entry for everything given that could be read, in order, its counts are the numbers given, its links the documents, images and chats filed in a held project, and its omissions the unreadable projects, documents and chats, attachments gone, pages unreadable, device copies of cloud chats and chats whose project is not held |
| BackupWriting.OmitsNothing | internal/archives/backup.go:281-284 | nothing is omitted, so the manifest says complete, exactly if everything given could be read, every chat's project is held, and no device chat is in the cloud too |
| BackupWriting.Writer.WriteCloud | internal/archives/export.go:566-582 | the cloud's chats are written exactly if no read fails and they fit, with an omission for each unreadable chat and each whose project is not held, and a link for each filed in a held one |
| BackupWriting.Writer.WriteDevice | internal/archives/export.go:584-597 | the device's chats are written but for those the cloud holds, each of which is an omission |
| BackupWriting.WriteAndOpen | internal/archives/export.go:521-603 | writing a backup without error and then opening it succeeds with equal counts, complete exactly if nothing given was left out, on an archive of everything given and its links |
| BackupWriting.FinishedIsAccepted | internal/archives/restore.go:35-111 | proper, recorded entries with their manifest last meet every condition of a restore |
| CloudImport.Restore | internal/archives/cloudimport.go:323-380 | the generation loop is the specified one, including which rows landed |
| CloudImport.RestoreSettles | internal/archives/cloudimport.go:323-380 | an entity restored, by a write, a lost answer or a find, is settled, and so is one whose row landed though the run was told it failed: every earlier id is another's row and its own is its row |
| CloudImport.UnlandedAddsNothing | internal/archives/cloudimport.go:354-377 | an entity none of whose rows landed adds no row |
| CloudImport.SettledIsFound | internal/archives/cloudimport.go:323-400 | a settled entity is found again under the same id with no write, or its read fails |
| CloudImportRuns.StoreKind | internal/archives/cloudimport.go:200-292 | one phase's loop is the specified one |
| CloudImportRuns.StoreAll | internal/archives/cloudimport.go:200-292 | the three phases in turn are the specified import |
| CloudImportRuns.ImportAddsUp | internal/archives/cloudimport.go:559-625 | when a run reaches the end, imported, skipped, failed and blocked add up to each kind's entities |
| ImportCounts.CountersCount | internal/archives/cloudimport.go:559-598 | imported, skipped and failed are each the number of entities of the kind with that outcome, in any run, and blocked the number passed over in one that reaches its end |
| ImportCounts.BlockedExactly | internal/archives/cloudimport.go:231-289 | in a run that reaches its end an entity is passed over exactly if the project it needs was not stored, or failed |
| ImportCounts.VacantIsStored | internal/archives/cloudimport.go:323-377 | an entity not held whose first id that is not another's is vacant is stored there under its own origin, with one write, if it is read, built and its write answered |
| ImportCounts.OwnIsFound | internal/archives/cloudimport.go:323-353 | an entity whose first id that is not another's is its own row is found there with no write |
| CloudImportRuns.ImportSettles | internal/archives/cloudimport.go:200-292 | after a run everything it stored, found or left behind is settled, and rows stored before are untouched |
| CloudImportRuns.SecondRunWritesNothing | internal/archives/cloudimport.go:200-400 | a second run pushes no row for any entity the first stored or found, nor for one whose push landed while the first run counted it failed, even if derived ids collide |

## Findings

- A chat removed when its row is already gone is sent to the index without a revision
  (internal/store/rows.go:534). `removeEntry` cannot tell such a removal from a later one, so a chat
  made again between `apply`'s check and its reading of the publication can be dropped from an index
  that is then published as complete through the write that made it
  (`SearchForgets.UnnumberedRemovalForgets`). It happens exactly when the chat was found gone, the
  complete index holds it, and its latest write is covered (`SearchCoverage.UnnumberedKeeps`,
  `SearchRuns.SpoilsIsInexact`); a chat still gone when the publication is read is safe
  (`SearchRuns.SpoilNeedsRemake`). Publications are otherwise exact (`SearchRuns.CompleteIsExact`).

## Left out

- Requests, authentication, buckets and the control plane's transport: only what they answer is modelled, as a choice of the environment.
- The bytes of JSON, hashes, ZIP framing, compression and encryption: an event is its value and its size a parameter, an encoding is any that decodes, and merged deltas are any bytes that decode to the merged event and are as long as its encoding, an entry's JSON is its value, a hash is any function.
- The window's clock: the timer may fire, hold or write at any step. Timestamps are numbers that never go back.
- `Run`, `threadSession` and `Log` objects are values in maps by identity; keys of chats and requests are numbers that stand for a caller's scope and an id.
- The key and transcript checks of `admit` are one comparison of owner and device; a turn the registry's checks pass may also be refused for any other reason.
- Held device replies (`hold`, `release`, `dropHeld` in live.go) and their expiry, queue state events, and the wake channel of a log.
- Commits to storage, titles and usage within `launch` and `finishRun`: they succeed or fail between the steps modelled.
- Events without a timestamp, whose message would take the wall clock's for its creation.
- Tool activities are a map by call, so the order of a snapshot's list is not modelled.
- `rebuild` and query repair: a rebuild is one step that may publish any index that keeps the invariant. Its entries carry a positive revision, which a rebuild begun before the caller's first write would not give them.
- Two writers of one process under different keys: each is a process of its own with its own cache.
- A failed publication is taken to have landed, or never to land, by the time it is read back; encoding and randomness succeed.
- Embeddings and index contents beyond which write an entry is from; `Upsert` may refuse an entry and then changes nothing.
- SearchCache.IndexCache.Get: a list position is moved by taking the slot out and putting it in front.
- Zip flags and modes are those a writer gives.
- Writing an archive's bytes to the client does not fail; an image's content type and file name are not checked by a restore and not modelled.
- An import's attachments, warnings and notes, and its report's totals beyond the counts by kind.
- Without sorting `NewIndex` itself: the sorted entries are given. `Exact`, `Basename` and stems are map lookups.
- `chatChunks` starts from the parts; reading the JSON and trimming are not modelled.
- `SanitizeToolCallArgumentsJSON` beyond the extraction, and URL stripping.
- The general values `writeCanonicalValue` prints, of which the three families use strings and one number.
