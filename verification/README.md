# pi-kiwifs-memory: a verified model of its crash-safe pipelines

The program moves records from a Pi session to a remote store that offers no compare-and-swap.
What makes that safe is a set of claims about whole runs: crashes, lost replies, replays, retries
and foreign writers may come between any two steps. This project models those pipelines and proves
the claims.

Each component is written twice. Functions on values say what one operation does to the whole
state; classes with the program's own fields, loops and early exits are proved to do exactly that.
Lemmas about the functions then speak of every sequence of events. An event that does not apply in
a state changes nothing, so "every run" means every list of events. Fields marked as history are
only there to state theorems and decide nothing.

| modules | what they model |
|---|---|
| Outbox, JournalRules, OutboxSystem, OutboxSafety, DeliveryOutcomes, Worker | the durable journal with rollback and its rules, one worker tick over per-scope heads, write-once delivery; at-least-once, order, and what a delivery ends in, over all runs |
| TickCoalescing | single flight of ticks, waiters and the follow-up run |
| BackupChunks, BackupVerify, BackupCapture, BackupContents, BackupRoundTrip, BackupRuns | chunker, independent verifier, incremental capture, what a capture may queue, the round trip between them through write-once chunk paths, and runs in which it fails |
| BoardState, BoardRetention, BoardDelivery, BoardDiscovery, BoardMarks, BoardSafety, BoardPaths, BoardListing, BoardCleanup, CleanupReasons | delivery state with bounded eviction, acknowledgments, the polling cycle and whom it hands messages, the bounded listing fallback, guarded remote cleanup and its reasons |
| Records, RecordReading, DataBlocks, CanonicalJson, JsonReading, IdempotencyKeys | the stored-record codec, what its reader accepts from anyone, the fenced data block, canonical JSON text and a reader for it, the text keys are hashed from |
| Proposals, ProposalGuards, ProposalRecovery | approve and undo as transactions of several writes that can stop anywhere, and when they may write at all |
| Coordinator, SessionGenerations, Scheduler, SchedulerTriggers, SchedulerSafety | session generations, observer batches, what each trigger takes on, single flight, merge and retry |
| Reflection, ReflectionRetries | pending, running, split and parked record sets; when the model is called, cooldown and giving up |
| PackRegistry, PackMatching | pending evidence packs, replay barriers, pack identity, and which message gets which pack |
| Common | options, results, atomic rewrites, filtering, stable sorting |

The outside world is data: a run of a tick, a poll, a cleanup or an extraction takes a record of
everything it reads from elsewhere (replies, reads, clocks, the private gate, how each durable
write ends), and the theorems hold for every such record. A journal or state rewrite ends as
written, or as a fault that leaves the old or the new bytes. A backend write takes effect before its
reply is seen, or never.

Some claims one would expect are false of the code. Each is shown by a concrete input or run, and the
exact condition under which it holds is proved:

- discarding a quarantined job on a read-only journal drops jobs of newer schemas
  (`Outbox.DiscardOnReadOnlyStoreDropsAJob`, `Outbox.DiscardKeepsOthersIff`);
- two board paths with one message id, as any id in two channels: the cursor passes the second
  unhandled (`BoardPaths.SameIdInTwoChannels`, `BoardSafety.EveryPathIsHandledIff`);
- a page limit of zero or less reports an empty listing as complete
  (`BoardListing.UntruncatedMeansCompleteIff`);
- a delete that failed is in no result when the run turns private behind it
  (`BoardCleanup.FailedDeleteThenPrivateIsUndisclosed`, `BoardCleanup.EveryIssuedDeleteIsDisclosedIff`);
- a backup on the backend need not verify (`BackupRoundTrip.CaptureThenVerify` is the exact
  condition): its entry count includes entries omitted whole (`BackupRoundTrip.OmissionsMissTheCount`);
  capturing on after a throw in the middle of queueing repeats chunk numbers
  (`BackupRoundTrip.CapturingAfterAThrowNeverVerifies`); a state file lost in a crash makes the next
  manifest declare contents the write-once paths do not take (`BackupRuns.LostStateNeverVerifies`);
  so does a job whose enqueue threw behind the rename and which a restart finds in the journal file
  (`BackupRuns.FoundJobNeverVerifies`); and a refused manifest leaves a chunk behind the declared ones
  (`BackupRuns.RefusedManifestNeverVerifies`). Without such a restart every declared path keeps its
  content, and the chunk behind the last is one that never got a manifest
  (`BackupRoundTrip.LossFreeRunVerifiesIff`); when nothing fails, only omissions and parent order
  matter (`BackupRoundTrip.CalmRunVerifiesIff`);
- the last chunk of a flush is derived differently with more entries
  (`BackupChunks.LastDraftSurvivesIff`);
- a record value with leading white space or a Unicode line separator does not survive the
  reader (`Records.RoundTripIff`);
- repeating a partial approval does not finish it (`ProposalRecovery.ApproveAgainIff`,
  `ProposalRecovery.ReplayIffEveryWriteWasMade`), though the source's comment says so
  (src/observation/proposals.ts:513-515);
- undo recovers from a cut approval exactly when every target was active before it, or superseded with
  this proposal's own mark (`ProposalRecovery.UndoRecoversIff`): the approval looks at no target before
  its first write, so with one it cannot supersede it leaves the proposal active and no undo ever
  finishes (`ProposalRecovery.ForeignTargetIsNeverUndone`), as with the second of two proposals over one
  record (`ProposalRecovery.SecondProposalIsNeverUndone`);
- a process that dies inside the acceptance of a batch queues it again under the same operation id
  (`SchedulerSafety.DyingInsideAcceptanceQueuesTwice`, `SchedulerSafety.TwoJobsIff`);
- with a limit of zero pending batches a new batch is dropped when none is pending, though the source's
  comment says nothing is (src/observation/scheduler.ts:792-799, `SchedulerTriggers.CreatedHolds`); its entries
  stay usable;
- a reflection whose acceptance stops behind its first job is reflected again: the next job queued names
  records of that set exactly when the set was not parked before (`Reflection.ReflectedAgainIff`,
  `Reflection.AnsweredAtOnceRepeatsAll`, `Reflection.DyingBehindTheReflectionRepeatsIt`), and no record is
  named twice without such a stop (`Reflection.NamedOnceUnlessPartly`).

## Model

| member | source | states |
|---|---|---|
| OutboxSafety.NoAcceptedJobIsLost | src/outbox/store.ts:318-506 | After any run of enqueue, tick, lost reply, failed rewrite, retry, quarantine, retention, discard, crash and reopen, a job whose enqueue returned was discarded by the user, or its content is on the backend at its path, or it is in the journal file, not acked, with its work unchanged |
| OutboxSafety.AckedImpliesDelivered | src/outbox/worker.ts:296-386 | In every run, a job marked acked in memory or in the file is delivered: the backend holds exactly its content, or for the mutable manifest that of the same or a later job |
| OutboxSafety.SendOrder | src/outbox/worker.ts:244-292 | In every run, with crashes and reopened stores whose numbers restart, jobs of one scope reach the sender in enqueue order, and no pending job was enqueued before one of its scope already sent |
| OutboxSafety.PersistedBeforeSend | src/outbox/store.ts:381-425 | A step that hands a job to the sender does so only while the file already holds that job under its operation id |
| OutboxSafety.HeadsAreLowest | src/outbox/worker.ts:244-260 | The head map of a tick holds, for each scope with pending jobs, exactly one job, the one of lowest sequence number |
| OutboxSafety.ImmutablePathsStay | src/backend/adapter.ts:215-249 | Once a record path is ours, no later event of any run changes its content |
| OutboxSafety.ManifestNeverGoesBack | src/backup/capture.ts:265-283 | The mutable manifest on the backend is always that of some enqueued job, and never of an earlier one than before |
| OutboxSafety.StepKeepsInv | src/outbox/worker.ts:236-386 | Every single event keeps the joint invariant of file, memory, heads, flight and backend |
| DeliveryOutcomes.SentIff | src/outbox/worker.ts:254-307 | A head reaches the sender exactly when it is due, the private gate is open at both looks, its target is unset or the expected one, and its operation id is on record; one that is not due or held is passed by with nothing changed |
| DeliveryOutcomes.OutcomeHasACause | src/outbox/worker.ts:302-350 | A delivery ends as a transient fault, as a private hold or as sent exactly when the read or the write said so, the gate closed, or the path already held exactly this content |
| DeliveryOutcomes.SettleSays | src/outbox/worker.ts:315-382 | Outside private mode a transient failure below the limit leaves the job pending with one attempt more and the new due time, a permanent one or the last allowed one quarantines it with the reason; what was sent becomes acked; in private mode nothing is recorded; no other job changes, and the file follows memory unless the rewrite fails |
| DeliveryOutcomes.QuarantinedOnlyAfterFailing | src/outbox/worker.ts:348-382 | In every run a job is quarantined, in memory or in the file, only if one of its deliveries failed permanently, or transiently for the last allowed time, outside private mode |
| DeliveryOutcomes.AttemptsStayBelow | src/outbox/worker.ts:348-360 | In every run the attempts of every job, in memory and in the file, are below the larger of one and the limit |
| DeliveryOutcomes.HeadReportIsTrue | src/outbox/worker.ts:262-386 | What a tick reports of a head is so: sent is on the backend, retried and quarantined are in the journal, held is untouched; a due head is in exactly one list unless its rewrite failed |
| Outbox.EnqueueIsAllOrNothing | src/outbox/store.ts:381-425 | In any store, earlier faulted rewrites included: an accepted job is last in memory and file, numbered above all others and within the job limit; a refused or failed enqueue leaves memory and numbering, and the file too unless the fault came behind the rename |
| Outbox.StoresStayNumbered | src/outbox/store.ts:278-506 | Whatever journal is opened, every run of operations, faults and reopenings keeps all numbers below the next one, and jobs of newer schemas only in a read-only store |
| Outbox.DiscardKeepsOthersIff | src/outbox/store.ts:472-485 | Discarding a quarantined job keeps every other job of the file exactly when all of them have the supported schema |
| Outbox.DiscardOnReadOnlyStoreDropsAJob | src/outbox/store.ts:472-485 | The missing read-only guard: a journal for which a discard loses a pending job |
| Outbox.DurableOutbox.Open | src/outbox/store.ts:278-304 | Reopening, also after a crash, takes exactly the jobs of the file; the store is read-only when one has a newer schema, and numbering goes on after the largest number |
| Outbox.DurableOutbox.Save | src/outbox/store.ts:318-343 | The file holds the new journal after success, and the old or the new one after a fault |
| Outbox.DurableOutbox.Add | src/outbox/store.ts:381-425 | Enqueue in the store's own steps has the specified effect on memory, file and numbering, refusals and rollback included |
| Outbox.DurableOutbox.Update | src/outbox/store.ts:427-466 | Ack, retry and quarantine change one job and roll back when the rewrite fails |
| Outbox.DurableOutbox.DiscardQuarantined | src/outbox/store.ts:472-485 | Removes one quarantined job and refuses any other number, with rollback; no guard for a read-only store |
| Outbox.DurableOutbox.Retain | src/outbox/store.ts:488-506 | Retention removes only acked jobs past their age, with rollback |
| Outbox.DurableOutbox.Paused | src/outbox/store.ts:346-355 | Capture pauses at the job count or byte limit |
| JournalRules.RefusedIff | src/outbox/store.ts:381-400 | An enqueue is refused for the first of these that holds, leaving the store as it was: closed, read-only, full by count or bytes, secret-bearing, a key that is not 16 to 64 hex digits; otherwise it fails only with its rewrite |
| JournalRules.AcceptedSays | src/outbox/store.ts:401-425 | An accepted job is last, takes the next number, carries the scope, payload, key, operation id and target asked for (or a fresh id and the session's target), is due at once and was never tried |
| JournalRules.ChangesOneJob | src/outbox/store.ts:427-466 | Ack, retry and quarantine reach the one job with the number, in memory and file unless the rewrite fails, and none in a read-only store or of a newer format |
| JournalRules.DiscardsQuarantinedOnly | src/outbox/store.ts:472-485 | A discard removes exactly the jobs of a number a quarantined job has, and is refused for any other number |
| JournalRules.RetentionDropsIff | src/outbox/store.ts:488-506 | Retention drops exactly the jobs acknowledged at least the retention period ago and reports their number; with none, or read-only, it writes nothing |
| JournalRules.NumbersOn | src/outbox/store.ts:278-304 | A reopened store numbers on right after the largest number in the file, and an empty one from one |
| DeliveryOutcomes.RetentionClearsTheJournal | src/outbox/store.ts:488-506 | After any run, once retention was written no job acknowledged long enough ago is in memory or in the file, and no other was dropped |
| Worker.Backend.Call | src/backend/adapter.ts:423-455 | A tool call is retried at most once and only if idempotent; a write reported as sent is on the backend; counts of other paths are untouched |
| Worker.Backend.WriteImmutable | src/backend/adapter.ts:215-249 | An existing path is never written; success means the path holds exactly this content |
| Worker.OutboxWorker.ScopeHeads | src/outbox/worker.ts:244-260 | The loop over pending jobs computes the per-scope heads |
| Worker.OutboxWorker.Deliver | src/outbox/worker.ts:296-386 | One delivery has the specified effect on backend, store and summary for every reply and every failed rewrite; which effect each ending calls for is `DeliveryOutcomes.SettleSays` |
| Worker.OutboxWorker.RunTick | src/outbox/worker.ts:236-292 | A whole tick, over any outside behaviour, is a run of the step system, so every theorem of OutboxSafety is about it, and its summary is the report of that run |
| Worker.HeadRun | src/outbox/worker.ts:262-386 | The four steps of one head amount to one delivery, or to passing the head by |
| Worker.PlaceAt | src/outbox/worker.ts:247-257 | A job joins the heads at the end, replaces a later-numbered head of its scope, or changes nothing |
| TickCoalescing.Coalescer.Tick | src/outbox/worker.ts:182-209 | A call joins the queued run as a waiter and requests a follow-up when that run has begun |
| TickCoalescing.Coalescer.FinishTick | src/outbox/worker.ts:211-221 | A finished run settles its caller, and the waiters too unless a follow-up is due, which is then queued |
| TickCoalescing.Coalescer.FailTick | src/outbox/worker.ts:224-234 | A throwing run rejects its caller and all waiters |
| TickCoalescing.SingleFlight | src/outbox/worker.ts:156-221 | In every interleaving at most one run is queued or active, and with none there is no waiter left |
| TickCoalescing.SummaryIsFresh | src/outbox/worker.ts:156-221 | Every caller that gets a summary gets that of a run that began after its call |
| TickCoalescing.NoCallerForgotten | src/outbox/worker.ts:156-221 | Every caller is settled or still attached to a run or the waiters, never both |
| TickCoalescing.SettledOnce | src/outbox/worker.ts:211-234 | Whatever run follows any other, what a caller was told never changes |
| TickCoalescing.RunsAreBounded | src/outbox/worker.ts:182-221 | There are never more runs than calls |
| TickCoalescing.TwoRunsDrain | src/outbox/worker.ts:182-221 | From any reachable state two further runs settle every caller |
| BackupChunks.ChunkEntries | src/backup/chunker.ts:70-119 | The flushing loop yields the specified drafts, and throws exactly for a cap under the minimum |
| BackupChunks.GroupsConcatenate | src/backup/chunker.ts:70-119 | The drafts' entries concatenate to the input, in order |
| BackupChunks.DraftsRespectTheCap | src/backup/chunker.ts:70-119 | Drafts are numbered consecutively; one is over the cap exactly when flagged oversized, and then has one entry; none could have taken the next draft's first entry |
| BackupChunks.AppendingKeepsEarlierDrafts | src/backup/chunker.ts:70-119 | Appending entries leaves all but the last draft unchanged |
| BackupChunks.LastDraftSurvivesIff | src/backup/chunker.ts:70-119 | The last draft is unchanged by appended entries exactly when it was closed by an overflow, nothing is appended, or the first appended entry does not fit into it |
| BackupChunks.ParseSerialized | src/backup/verify.ts:77-165 | The verifier's parser reads back every serialized chunk, and refuses one of another session |
| BackupChunks.ParseAccepts | src/backup/verify.ts:77-165 | Whatever the parser accepts is a serialized chunk of named entries, up to fields it ignores |
| BackupVerify.VerifyBackup | src/backup/verify.ts:303-495 | The verifier's loops report exactly the specified issues, and ok means none |
| BackupVerify.ScanRecord | src/backup/verify.ts:350-411 | One manifest record against its delivered chunk: missing, checksum, unparsable, sequence and entry list |
| BackupVerify.NoIssuesIffValid | src/backup/verify.ts:303-495 | No issue is reported exactly when the backup is valid, stated without the loops: identity, sequence sets, checksums, contents, unique ids, range and parents |
| BackupVerify.AcceptedBackupIsAForest | src/backup/verify.ts:303-495 | In an accepted backup delivered numbers equal the manifest's, ids are unique, and following parents from any entry reaches a root in at most as many steps as there are entries |
| BackupVerify.ManifestPinsContents | src/backup/verify.ts:350-411 | With a collision-free checksum one manifest accepts at most one set of chunk contents |
| BackupCapture.Engine.Capture | src/backup/capture.ts:508-722 | One flush, with its skips, filters, redaction, queueing, a throw at any job and a throwing state-file rewrite, has the specified effect on state, queue, file and outcome; that nothing but redacted text of allowed views is queued is `BackupContents.QueuedEntriesAreRedacted` |
| BackupCapture.Engine.Undelivered | src/backup/capture.ts:508-570 | Keeps the views not yet covered, each id once, in order |
| BackupCapture.Engine.Sort | src/backup/capture.ts:571-632 | Splits views into kept, omitted and held ones; which is which is said by `BackupContents.RedactedIsQueuedOnce`, `BackupContents.LeftOutIsOnRecord` and `BackupContents.HeldBackIsNeitherQueuedNorCovered` |
| BackupCapture.Engine.EnqueueChunks | src/backup/capture.ts:635-675 | Queues chunks in order and stops at the first refusal, with the records of those queued |
| BackupContents.QueuedEntriesAreRedacted | src/backup/capture.ts:561-675 | Every entry of every chunk a flush queues is a view of that flush, not covered before, with the same id and parent, readable and not excluded, and its text is what the redactor made of it |
| BackupContents.RedactedIsQueuedOnce | src/backup/capture.ts:561-675 | In a flush that captures, each new readable view the redactor could handle is covered and in exactly one queued chunk, with the redactor's text |
| BackupContents.HeldBackIsNeitherQueuedNorCovered | src/backup/capture.ts:584-590 | A view whose redaction failed is in no queued chunk, and stays uncovered |
| BackupContents.LeftOutIsOnRecord | src/backup/capture.ts:561-583 | In a flush that captures, a new view that is internal, without text or excluded is covered, in no chunk, and each of its reasons is on record |
| BackupContents.SkippedIff | src/backup/capture.ts:508-548 | A flush does nothing exactly in private mode, without valid exclusion rules, or when every view is covered |
| BackupContents.FlushIsCutOff | src/backup/capture.ts:635-722 | A queue with less room makes a flush throw; it queues just the first jobs of the whole flush, records their chunks, and covers the views in memory only if every chunk was accepted |
| BackupContents.NoRawTextLeaves | src/backup/capture.ts:508-722 | Over every run of flushes, throws, failed rewrites and restarts, whatever stands at a chunk path was made by the redactor from a view some flush was allowed to back up |
| BackupRoundTrip.RunKeepsInv | src/backup/capture.ts:391-482 | Every run of flushes, throws, failed rewrites and restarts, jobs found again in the journal file included, keeps this: the capture state is numbered and covered consistently, or a throw left its records ahead of the next number for good; and the last manifest queued is that of the state it was built from |
| BackupRoundTrip.CaptureThenVerify | src/backup/capture.ts:508-722 | After any such run, what is on the backend (first content queued per chunk path, last manifest) verifies with no issue exactly when the manifest was not built behind a throw in the same process, nothing it covers was omitted whole, parents precede children, every declared path kept the declared content, and no chunk sits behind the last declared one |
| BackupRoundTrip.LossFreeRunVerifiesIff | src/backup/capture.ts:508-722 | In any run, throws included, whose restarts lose no state and find no rolled-back job, and whose process is not torn at the end: every declared path holds its content, a chunk sits behind the last declared one exactly when chunks queued since got no manifest, and the verdict depends on that, omissions and parent order alone |
| BackupRoundTrip.CalmRunVerifiesIff | src/backup/capture.ts:508-722 | When no enqueue and no rewrite fails, with restarts anywhere, it verifies exactly when no entry covered up to the last manifest was omitted whole and parents precede children; the entry-count issue appears exactly when one was |
| BackupRoundTrip.OmissionsMissTheCount | src/backup/manifest.ts:69-101 | With the declared contents in place, the entry-count issue appears exactly when an entry the manifest covers was omitted whole |
| BackupRoundTrip.FetchRemoteBackup | src/backup/recovery.ts:50-106 | The reading loop finds the declared chunks and the probe behind the last |
| BackupRuns.LaterOmissionLeavesTheBackup | src/backup/capture.ts:645-700 | An entry omitted after the last manifest is covered by the state but the backup still verifies, though a manifest built now would not |
| BackupRuns.LostStateNeverVerifies | src/backup/capture.ts:285-300 | A run, with a state file lost in a crash, after which every other condition holds and the backup does not verify |
| BackupRuns.RefusedManifestNeverVerifies | src/backup/recovery.ts:86-106 | A run, with a refused manifest, after which only the chunk behind the declared ones stands in the way |
| BackupRuns.FoundJobNeverVerifies | src/outbox/store.ts:318-343 | A run, with an enqueue that throws behind the rename and a restart that finds its job, after which every other condition holds and the backup does not verify |
| BackupRoundTrip.QueuedChunksAreDeliverable | src/backup/capture.ts:152-236 | Every chunk job a flush queues passes the checks made before it is sent |
| BackupRoundTrip.RepeatedSeqNeverVerifies | src/backup/verify.ts:350-411 | No input makes a manifest with a repeated chunk number verify |
| BackupRoundTrip.CapturingAfterAThrowNeverVerifies | src/backup/capture.ts:635-675 | From any state a throw in the middle of queueing left, and through any restart-free run that queues a manifest, that manifest never verifies, whatever was delivered |
| BackupRoundTrip.RederivedChunksAreReplays | src/backup/capture.ts:265-300 | After a crash, deriving again with more entries present gives the same jobs for all but the last draft |
| BoardState.EvictionRespectsTheBacklog | src/board/delivery.ts:263-304 | Eviction removes settled entries only, none under the bound, and down to the bound unless all that is left is unread |
| BoardState.EvictionIsOldestFirst | src/board/delivery.ts:263-304 | No evicted entry is newer than a settled one that stays |
| BoardState.SaveKeepsTheBacklog | src/board/delivery.ts:263-304 | After a save no unread entry is gone, there are at most max(2000, unread) entries, surviving acks are within 14 days of the newest stamp, and whatever left was an old ack or a settled entry over the bound |
| BoardState.CollectKeepsOk | src/board/delivery.ts:242-256 | Local cleanup keeps the state's bounds and every unread entry |
| BoardState.DeliveryStateFile.SaveState | src/board/delivery.ts:263-304 | Prune, evict and rewrite in the file's own loops have the specified effect on memory and disk, faults included |
| BoardState.DeliveryStateFile.RecordEntry | src/board/delivery.ts:211-224 | Recording puts one entry by message id and saves |
| BoardState.DeliveryStateFile.RecordAck | src/board/delivery.ts:226-233 | Acknowledging stamps a known entry and saves, and reports an unknown one |
| BoardState.DeliveryStateFile.CollectGarbage | src/board/delivery.ts:242-256 | Removes settled entries past retention, and counts them |
| BoardDelivery.Poller.RunCycle | src/board/delivery.ts:514-749 | A cycle in its own loops, phases and early returns performs its plan of durable effects, in order, up to the first failure, and hands the callback exactly those messages; each of them was read as a message to the recipient, if one is set, and a cycle that completes hands over every pending one read so |
| BoardDelivery.Poller.PageFeed | src/board/delivery.ts:544-602 | Paging until the feed runs dry, repeats its cursor, faults or reaches the page limit finds the specified items, cursor and fault |
| BoardDelivery.CycleIsRight | src/board/delivery.ts:640-730 | Whatever a cycle attempts, it hands over only messages read as addressed to us; an entry it writes as skipped gives the reason its reading calls for, unauthorized exactly for another recipient, a foreign channel or a bad request |
| BoardDiscovery.DiscoveryStopsWhere | src/board/delivery.ts:566-609 | Pages are asked for while each moves the cursor and lists something, up to the limit; a fault is noted exactly when the page behind these fails, and the cursor seen is that of the last page that moved it |
| BoardDiscovery.PendingIff | src/board/delivery.ts:604-640 | A cycle finds its messages unless the feed fails in a way worth retrying, or fails otherwise and the listing throws too |
| BoardDiscovery.TakesNewPaths | src/board/delivery.ts:580-600 | Of the paths listed exactly the board paths whose message is neither retained nor pending are taken, each message once, under the path that names it first |
| BoardDiscovery.CompletesIff | src/board/delivery.ts:560-740 | A cycle goes through, but for its writes, exactly when the gate is open at every look, the backlog is below the limit, discovery found its messages, and every one of them could be read |
| BoardDiscovery.CompletedCycleMovesTheCursor | src/board/delivery.ts:728-736 | Such a cycle, every write succeeding, leaves the cursor of the last page that moved it, in memory and on disk |
| BoardDiscovery.WhatACycleHands | src/board/delivery.ts:558-727 | Every write succeeding, a cycle attempts nothing when private or over its backlog at the start, without messages, or when a read throws; otherwise it reads up to the first message it cannot or may not read and hands over those to deliver, oldest first, up to the first look at a closed gate |
| BoardMarks.EntriesSayWhatWasRead | src/board/delivery.ts:640-730 | In every run each entry in memory or on disk says what some cycle read at its path: delivered a message to us, skipped exactly the reason of its reading |
| BoardRetention.FirstAckCounts | src/board/delivery.ts:226-233 | The first acknowledgment of an entry stamps it, and it alone; a second one, or one of an unknown message, changes nothing and writes nothing |
| BoardRetention.AckedByAnEvent | src/board/delivery.ts:226-233 | In every run an acknowledged entry has the instant of an acknowledgment of that message |
| BoardRetention.CleanupRemovesIff | src/board/delivery.ts:242-256 | Local cleanup takes out exactly the entries whose acknowledgment, or else whose skip, is past retention, counts them, and writes nothing when there are none |
| BoardSafety.CursorNeverPassesAMessage | src/board/delivery.ts:544-749 | In every run with crashes anywhere, every board message at or before the stored cursor, in memory or on disk, had a callback that resolved or a skip recorded in memory |
| BoardSafety.UniqueIdsHandleEveryPath | src/board/delivery.ts:544-749 | In a run no two of whose paths (published, paged or listed) share a message id, the same holds of every board path at or before the stored cursor |
| BoardSafety.EveryPathIsHandledIff | src/board/delivery.ts:560-640 | For any set of paths: all runs among them handle every path they pass exactly when no two board paths of the set share an id |
| BoardPaths.BoardPathIff | src/board/repository.ts:461-482 | The two path predicates recognise exactly the paths messages are written to, with their channel and id |
| BoardPaths.ChannelOfIff | src/board/repository.ts:461-471 | A path lies in a channel exactly when it is below that channel's directory, the name is well formed, and no piece of the rest is `..` |
| BoardPaths.IdOfIff | src/board/repository.ts:478-483 | A path has a message id exactly when it is some channel's path of sixteen to sixty-four hex digits |
| BoardPaths.SameIdInTwoChannels | src/board/delivery.ts:560-640 | Any id in any two channels: a clean cycle moves the stored cursor past both messages and handles the first only |
| BoardSafety.TwinPathIsPassedUnhandled | src/board/delivery.ts:560-640 | Two paths with one id: a clean cycle passes the second unhandled |
| BoardSafety.PausedCycleKeepsCursor | src/board/delivery.ts:544-749 | A cycle that pauses, turns private, faults or throws does not move the cursor |
| BoardSafety.CallbackSeesNewMessagesInOrder | src/board/delivery.ts:660-730 | One cycle calls back only for messages without a retained entry, each once, in order of creation |
| BoardSafety.StateStaysBounded | src/board/delivery.ts:263-304 | The bounds of the state hold in memory and on disk after every run |
| BoardListing.ListAllBoardMessagePaths | src/board/repository.ts:308-367 | The paging loop computes the specified listing for any backend pages |
| BoardListing.ListingIsExact | src/board/repository.ts:308-367 | Over a fixed row list: no duplicates, at most the path limit, only wanted paths; all of them when not truncated; and at least one whenever one lies within the page limit |
| BoardListing.UntruncatedMeansCompleteIff | src/board/repository.ts:308-367 | Not truncated means complete exactly when the page limit is positive or there was nothing to list |
| BoardCleanup.EligibleIff | src/board/cleanup-rules.ts:63-125 | A candidate is eligible exactly when it is ours, well stamped, acknowledged, and both the ack and the expiry are past the grace period |
| BoardCleanup.EligibleMeansQuiet | src/board/cleanup-rules.ts:94-124 | Eligible on a retained ack means no delivery-state activity of any message for more than 16 days |
| BoardCleanup.Executor.Run | src/board/cleanup-execute.ts:144-371 | The executor's loop, with its refusals, bounds, aborts, unknown outcomes and a throwing ledger, has the specified progress and returns the record specified for its ending |
| BoardCleanup.CleanupIsGuarded | src/board/cleanup-execute.ts:189-370 | Against any outside behaviour: deletions follow the preview's order and bound; each was issued right after a fresh read with the candidate's id, instant and etag and our sender, past the grace period, and after a recorded operation id; an unbounded run puts each candidate in exactly one list |
| BoardCleanup.EveryIssuedDeleteIsDisclosedIff | src/board/cleanup-execute.ts:322-371 | Every delete sent is in the returned record, as done, failed or unknown, exactly when the run did not turn private after a failed delete and the ledger did not throw after any |
| BoardCleanup.FailedDeleteThenPrivateIsUndisclosed | src/board/cleanup-execute.ts:111-118 | A run whose only delete failed before private mode began returns an empty record |
| CleanupReasons.RulingIff | src/board/cleanup-rules.ts:63-125 | A message is held back for the first of these: not ours, unreadable times, not both expired and acknowledged, within the grace period |
| CleanupReasons.RefusedUpfrontIff | src/board/cleanup-execute.ts:144-188 | A run is refused before it begins for the first of these: no plan, no identity, another identity than the plan's, private mode; and begins otherwise |
| CleanupReasons.EveryCandidateHasItsReason | src/board/cleanup-execute.ts:189-371 | Against any outside behaviour a run passes the candidates in order up to the first that stops it, for the reason given; those before it are deleted exactly when their path carries their id, the fresh read has their id, instant, our sender and their etag, both settled instants are past the grace period, and the backend does it, and are skipped for their own reason otherwise; nothing else is in the record |
| CleanupReasons.RecordTellsTheReason | src/board/cleanup-execute.ts:189-371 | The returned record says of every run whether and why it was cut short: aborted, at the bound, private, or thrown by the ledger, each exactly when the candidate it stopped at gave that reason |
| Records.RoundTripIff | src/domain/records.ts:134-252 | Reading a serialized record gives the record back exactly when its id, kind, status, scope and date are valid, its source names are not empty, its board fields fit its kind, and its values contain no line break and no leading space |
| Records.ParseFieldsIff | src/domain/records.ts:134-218 | The chain of checks yields a record exactly when every field reads as that record's |
| Records.StoredIff | src/backend/parse.ts:94-114 | A value survives the line reader exactly when it is clean |
| Records.FencedReadsBack | src/backend/parse.ts:94-114 | A fenced header followed by any body, fences included, reads back as its fields and that body |
| Records.SourcesReadBackIff | src/domain/records.ts:93-132 | Source references read back exactly when no name in them is empty |
| Records.ParseKeyValueLines | src/backend/parse.ts:94-102 | The loop over lines builds the specified dictionary, later keys winning |
| Records.ParseSourceRefs | src/domain/records.ts:93-132 | The loop with its early refusals reads the specified references |
| RecordReading.LineReadsIff | src/backend/parse.ts:94-102 | A line is read as key and value exactly when it is a well-formed key, a colon, white space, and a value that neither begins with any nor holds a line break |
| RecordReading.LastLineWins | src/backend/parse.ts:94-102 | A key has the value of the last line read for it |
| RecordReading.FencedReads | src/backend/parse.ts:104-114 | A document with an opening fence reads as the lines up to the first closing one and what is behind it, one line break dropped |
| RecordReading.UnfencedReads | src/backend/parse.ts:104-114 | Any other document is all body |
| RecordReading.UnreadableBecause | src/domain/records.ts:134-157 | A document is refused as of a future version exactly when it declares a greater one, as malformed when it declares none or none that is positive, and never otherwise as unsupported |
| RecordReading.PrintedIff | src/domain/records.ts:219-252 | A record is printed exactly when it has the one version and no value of its header breaks a line |
| DataBlocks.BlockReadsBack | src/observation/reflection.ts:632-652 | The fenced data block gives back its JSON whatever text is appended behind it |
| Proposals.Lifecycle.ApproveInner | src/observation/proposals.ts:419-521 | Approval in its own steps, cut after any write, reaches the specified documents and outcome; when it may write is `ProposalGuards.ApprovalNeedsAPendingProposal` |
| Proposals.Lifecycle.UndoInner | src/observation/proposals.ts:617-716 | The same for undo, with its replay checks and its restoring loop |
| Proposals.Store.VerifiedWrite | src/observation/proposals.ts:356-375 | A verified write changes one document, and reports success only when it is there |
| ProposalGuards.ApprovalNeedsAPendingProposal | src/observation/proposals.ts:427-498 | An approval changes a document only if the proposal reads as pending approval, and then only the proposal and active targets of it; over a proposal neither pending nor active it is stale |
| ProposalGuards.UndoNeedsAnApprovedProposal | src/observation/proposals.ts:617-716 | An undo changes a document only if the proposal reads as active and its text says it was approved, and then only the proposal and targets superseded with its mark |
| ProposalGuards.UndoIsReplayIff | src/observation/proposals.ts:622-645 | An undo is a replay exactly when the proposal is superseded and its text says it was undone; over any other that is not active and approved it is stale and writes nothing |
| ProposalGuards.UndoneIsFinal | src/observation/proposals.ts:427-454 | After a completed undo, over recoverable targets and through any approvals and undos that follow, every approval is stale, every undo a replay, no document changes, the proposal stays superseded and the targets active |
| ProposalRecovery.UndoRecoversIff | src/observation/proposals.ts:466-716 | From every crash point of an approval after its first write, through any undo attempts cut anywhere, an undo that may write enough succeeds exactly when every target was, before the approval, active or superseded with this proposal's mark |
| ProposalRecovery.UndoRecoversFromEveryCrash | src/observation/proposals.ts:617-716 | When it succeeds, the proposal is superseded and every target active, with its original frontmatter otherwise and its body extended by appended lines only |
| ProposalRecovery.ForeignTargetIsNeverUndone | src/observation/proposals.ts:466-498 | With a target that is missing, unreadable, or superseded by another proposal, the approval makes the proposal active and stops; every undo stops too, the proposal stays active and that target's document as it was |
| ProposalRecovery.SecondProposalIsNeverUndone | src/observation/proposals.ts:466-498 | Two proposals over one record: with the first approved in full, approving the second leaves it active for good |
| ProposalRecovery.ReplayIffEveryWriteWasMade | src/observation/proposals.ts:427-448 | Over distinct active unmarked targets, approving again after a cut approval is a replay exactly when the first made a write for the proposal and one for each target; it writes nothing |
| ProposalRecovery.UndoKeepsDecided | src/observation/proposals.ts:617-716 | Over recoverable targets every undo attempt, cut anywhere, keeps the recoverable state, never finds it stale, and finishes when it is not cut |
| ProposalRecovery.ApprovalDecides | src/observation/proposals.ts:419-521 | Over recoverable targets an approval cut anywhere after its first write leaves a recoverable state and the proposal active |
| ProposalRecovery.ApproveAgainIff | src/observation/proposals.ts:427-448 | Approving again writes nothing, and is a replay exactly when every target carries the supersession mark, otherwise stale |
| ProposalRecovery.WithStatusChangesOnlyTheStatus | src/observation/proposals.ts:381-392 | Changing the status of a stored record changes nothing else, and reads back |
| ProposalRecovery.AppendIsOnBody | src/observation/proposals.ts:377-379 | Appending provenance to a document appends to its body and leaves the header alone |
| ProposalRecovery.ExtensionKeepsTheBody | src/observation/proposals.ts:377-379 | A body extended by lines begins with the original up to trailing newlines |
| ProposalRecovery.BlockIsRead | src/observation/reflection.ts:643-652 | The data block is still read after provenance lines were appended to its body |
| JsonReading.CanonicalIff | src/domain/idempotency.ts:52-66 | Two values have the same canonical text exactly when they are equal as JSON up to object key order |
| JsonReading.UniqueText | src/domain/idempotency.ts:52-66 | Text of a value followed by a delimiter is decoded in one way only |
| JsonReading.CanonicalReadsBack | src/domain/idempotency.ts:52-66 | Canonical text is JSON: a reader written after the grammar of RFC 8259, independent of the printer, reads it as the value with its keys sorted and what is not JSON as null |
| JsonReading.QuoteReadsBack | src/domain/idempotency.ts:60-66 | A quoted string is read as that string by section 7 of RFC 8259, whatever follows |
| JsonReading.LessIsByCodeUnits | src/domain/idempotency.ts:57-58 | Keys are ordered as the sequences of their UTF-16 code units |
| CanonicalJson.NormalIff | src/domain/idempotency.ts:56-65 | Sorting keys recursively identifies exactly the equal values |
| CanonicalJson.SortKeysSorts | src/domain/idempotency.ts:57-58 | Key sorting orders the keys and keeps the fields |
| IdempotencyKeys.KeyTextIff | src/domain/idempotency.ts:72-84 | Two idempotency inputs are hashed from the same text exactly when they are equal |
| Coordinator.SessionCoordinator.Consume | src/pi/coordinator.ts:352-361 | Consumed ids grow by those not yet there |
| Coordinator.SessionCoordinator.OnSessionStart | src/pi/coordinator.ts:424-443 | A start mints a generation for a new session or after a shutdown, and resumes otherwise |
| Coordinator.SessionCoordinator.OnTree | src/pi/coordinator.ts:495-522 | A navigation commits what was offered for consumption and mints a generation |
| SessionGenerations.RepeatedStartKeepsTheGeneration | src/pi/coordinator.ts:424-443 | Once a session is started, and through anything that stays in it, another start of it keeps the generation and refreshes the branch; a start of another session begins a new generation there |
| SessionGenerations.StartAfterTheEndIsNew | src/pi/coordinator.ts:424-443 | After a shutdown or a death the next start, or a navigation that comes first, begins a new generation |
| SessionGenerations.NavigationIsNewIff | src/pi/coordinator.ts:495-522 | In an open session a navigation begins a new generation exactly when it leads elsewhere and is no replay of the last one |
| SessionGenerations.ConsumedIff | src/pi/coordinator.ts:352-361 | In every run an entry is consumed exactly when its work was accepted, or when it was offered before a navigation that went ahead in an open session and nothing in between replaced or dropped the offer |
| SessionGenerations.RegistryOnlyGrows | src/pi/coordinator.ts:352-361 | In every run the registry holds each entry once and only grows at its end, and a death loses neither it nor where the session is |
| Scheduler.ObserverScheduler.OnAgentSettled | src/observation/scheduler.ts:814-859 | A settled turn classifies, retries and schedules as specified; which of these it does is said by `SchedulerTriggers.SettledTurn` and `SchedulerTriggers.PrivateTriggersBatchNothing` |
| Scheduler.ObserverScheduler.OnBeforeCompact | src/observation/scheduler.ts:898-973 | A compaction flush as specified, private and aborted ones included |
| Scheduler.ObserverScheduler.StartRun | src/observation/scheduler.ts:535-600 | A run up to its model call: vanished, held or missing extractor end it early |
| Scheduler.ObserverScheduler.EndRun | src/observation/scheduler.ts:600-705 | A run past its model call: stale results, failures with backoff, refusal by the outbox, acceptance |
| Scheduler.ObserverScheduler.Create | src/observation/scheduler.ts:789-807 | A full list of pending batches widens the oldest one, otherwise a new batch is queued |
| Scheduler.ObserverScheduler.BuildBatch | src/observation/scheduler.ts:496-517 | The filling loop takes the specified prefix of candidates |
| Scheduler.ObserverScheduler.RetryPending | src/observation/scheduler.ts:752-759 | Queues every due batch that is not already running |
| SchedulerTriggers.PrivateTriggersBatchNothing | src/observation/scheduler.ts:814-973 | In private mode no trigger makes or widens a batch or queues a run |
| SchedulerTriggers.TriggersConsumePrivatelyOnly | src/observation/scheduler.ts:814-973 | A trigger consumes an entry exactly when it comes in private mode, is no manual flush nor an unarmed timer, and shows it usable |
| SchedulerTriggers.ConsumedForAReason | src/observation/scheduler.ts:535-973 | In every run an entry is consumed exactly when some event of it did so: shown usable in private mode, vanished from the session, accepted as a job, or committed by navigation |
| SchedulerTriggers.PrivateIdsCameInPrivateMode | src/observation/scheduler.ts:819-830 | In every run what is noted as private was shown by an event in private mode |
| SchedulerTriggers.SettledTurn | src/observation/scheduler.ts:832-859 | Outside private mode a settled turn queues every due batch; with an extractor and usable entries at the token or the turn threshold the first of them is in a pending batch that is queued or running, below both the idle timer is armed and nothing is batched |
| SchedulerTriggers.IdleTakesOn | src/observation/scheduler.ts:770-787 | An armed idle timer takes on the first usable entry whatever the thresholds; an unarmed one does nothing |
| SchedulerTriggers.ManualTakesOn | src/observation/scheduler.ts:862-889 | So does a manual flush with an extractor |
| SchedulerTriggers.CompactionTakesOn | src/observation/scheduler.ts:898-936 | A compaction flush that is not aborted queues a batch of its own, over the limit too |
| SchedulerTriggers.CreatedHolds | src/observation/scheduler.ts:789-807 | A new batch's first entry ends up in a batch that is queued or running exactly when the limit is positive or there is a batch to widen |
| SchedulerTriggers.RunReachesTheModelIff | src/observation/scheduler.ts:535-600 | A run reaches the model exactly when its batch is pending, some entry of it is still in the session, there is an extractor, and the redactor can handle every entry that is there; only a batch whose entries are all gone is closed |
| SchedulerTriggers.FailureCoolsDown | src/observation/scheduler.ts:738-750 | A failed run consumes nothing: its batch stays, one attempt on, and cools down for the base time doubled with each earlier failure, under the cap |
| SchedulerSafety.EntriesBelongToOneOpId | src/observation/scheduler.ts:462-736 | In every run, deaths inside acceptance included, pending batches are disjoint, and jobs and batches of different operation ids share no entry; of one id, a later job names all an earlier one named |
| SchedulerSafety.NoEntryIsExtractedTwice | src/observation/scheduler.ts:462-736 | Without a death inside acceptance, jobs have different operation ids and disjoint entries, and no pending batch shares any with a job |
| SchedulerSafety.TwoJobsIff | src/observation/scheduler.ts:605-665 | Jobs and acceptances correspond one to one, and an operation id has two jobs exactly when a death inside its acceptance was followed by another acceptance of it |
| SchedulerSafety.DyingInsideAcceptanceQueuesTwice | src/observation/scheduler.ts:605-665 | A run in which that happens |
| SchedulerSafety.ConsumedMeansAccountedFor | src/observation/scheduler.ts:535-736 | In every run an entry is consumed only if a job names it, it was classified private, its batch vanished, or tree navigation committed it; each of the last three consumes; and what a job names is consumed or still in the batch of that job |
| SchedulerSafety.SingleFlightPerBatch | src/observation/scheduler.ts:719-736 | No batch is queued twice or queued while running, and every run is of a pending batch |
| SchedulerSafety.NoEntryIsForgotten | src/observation/scheduler.ts:462-473 | In every run a usable entry is offered to the next trigger exactly until a pending batch or a job names it, or it was private, vanished or committed by navigation |
| SchedulerSafety.AnswerIsKeptIff | src/pi/coordinator.ts:384-522 | Whatever happens while a batch is at the model, its answer becomes a job exactly when no event in between moved the session to another leaf or session or began it again; generations never go down |
| SchedulerSafety.BatchIsLongestFit | src/observation/scheduler.ts:496-517 | A batch is the longest prefix of the candidates within the budget, and at least one entry |
| Reflection.ReflectionEngine.Run | src/observation/reflection.ts:1101-1155 | A triggered run resumes or starts a set and carries it through as specified, with death at any call |
| Reflection.ReflectionEngine.AcceptResult | src/observation/reflection.ts:1280-1384 | Queueing a result, stopped before the reflection job, behind it by a refusal or a death, or not at all, has the specified effect on jobs, pool and processed sets |
| Reflection.ReflectionEngine.Retry | src/observation/reflection.ts:1248-1277 | A failed set backs off, and is parked after its last attempt; how often that is, is `ReflectionRetries.GivenUpIff` |
| Reflection.ReflectionEngine.Note | src/observation/reflection.ts:1039-1050 | A notification joins the pool unless it is among the remembered ones, whose window is bounded |
| ReflectionRetries.ModelIsCalledIff | src/observation/reflection.ts:1101-1245 | A trigger calls the model exactly when there is a reflector and a set at work that is not cooling down or asked for by hand, or else a pool that is large enough or asked for by hand and was not processed before, and every record passes the screen and the process lives to call |
| ReflectionRetries.WorkingTriggerLeaves | src/observation/reflection.ts:1164-1384 | What a trigger at work leaves behind, how many calls it made and whether it died, for every reply, split, refusal and death: after a failed try one attempt more, due after the base time doubled with every earlier failure under the cap, or parked at the limit; after a full acceptance gone and remembered; otherwise still at work, unchanged |
| ReflectionRetries.ParkedOnlyAtTheLimit | src/observation/reflection.ts:1248-1277 | In every run a record is parked only by a failed try of a set that holds it, when that set's failed tries reach the limit |
| ReflectionRetries.AttemptsAreCounted | src/observation/reflection.ts:1248-1277 | In every run a set at work has no more attempts than failed tries of exactly its records, and fewer than the limit |
| ReflectionRetries.GivenUpIff | src/observation/reflection.ts:1248-1277 | However the failures of a set are spread among arrivals and idle triggers, the next one parks it exactly when it is the limit's, and keeps it at work otherwise |
| ReflectionRetries.VanishedRecordsAreLeftOut | src/observation/reflection.ts:1164-1195 | A set whose records are not all in the pool is reflected as what is left, under that identity, and let go when nothing is |
| Reflection.ModelCallsAreBounded | src/observation/reflection.ts:1164-1245 | Carrying a set of n records through makes at most 1 + ceil(log2 n) model calls |
| Reflection.CeilLog2IsLeast | src/observation/reflection.ts:1225-1240 | The bound's logarithm is the least exponent whose power of two reaches n |
| Reflection.EveryRecordIsSomewhere | src/observation/reflection.ts:1101-1384 | Over whole runs with splits, failures and deaths, each notified record is in exactly one of pending, summarised and parked, and none is dropped |
| Reflection.NothingIsEverLost | src/observation/reflection.ts:1101-1384 | Over all runs, repeated notifications and deaths anywhere included: a notified record is pending, summarised or parked, a summarised one is in a finished job, and the already-processed guard drops only what was summarised before |
| Reflection.ReflectedAgainIff | src/observation/reflection.ts:1316-1372 | In any run, after an acceptance that stops behind the reflection job and whatever else that queues none, the next job queued names the first record of that set again, and only records of it, exactly when that record was not parked in between |
| Reflection.NamedOnceUnlessPartly | src/observation/reflection.ts:1316-1372 | With distinct notifications no record is named by two jobs unless an acceptance of it stopped behind the reflection job |
| Reflection.AnsweredAtOnceRepeatsAll | src/observation/reflection.ts:1101-1155 | From any reachable state an answer right behind such an acceptance names exactly its records a second time |
| Reflection.FinishedIsForGood | src/observation/reflection.ts:1316-1384 | The records of a finished job are summarised, and never pending, parked or named again |
| Reflection.DyingBehindTheReflectionRepeatsIt | src/observation/reflection.ts:1316-1372 | A run that dies behind the reflection job and reflects the same set again |
| PackRegistry.PendingPackRegistry.Register | src/retrieval/coordinator.ts:263-268 | Adding refuses an id that is pending or was consumed, and appends the pack otherwise |
| PackRegistry.PendingPackRegistry.Match | src/retrieval/coordinator.ts:287-324 | Matching against the last user text and count, replay barrier included; whom it serves is `PackMatching.CallIsServedRight` |
| PackRegistry.PendingPackRegistry.MatchFresh | src/retrieval/coordinator.ts:326-340 | The fresh pack of this prompt is handed out and removed |
| PackRegistry.PendingPackRegistry.Settle | src/retrieval/coordinator.ts:342-350 | Everything unmatched is dropped |
| PackRegistry.PendingPackRegistry.Note | src/retrieval/coordinator.ts:238-260 | The barrier tables remember a count per key with first-in first-out eviction |
| PackRegistry.LastUserMessage | src/retrieval/coordinator.ts:136-143 | The search from the end finds the text of the last user message |
| PackMatching.LastUserIff | src/retrieval/coordinator.ts:136-143 | The key is that of the user message after which no user message follows |
| PackMatching.CountUsersIs | src/retrieval/coordinator.ts:131-133 | The count is the number of user messages |
| PackMatching.CallIsServedRight | src/retrieval/coordinator.ts:287-313 | A call remembered at this count changes nothing; any other is handed the first pending pack of its last user text, if there is one, which leaves the pending ones for good, and is remembered |
| PackMatching.NewMessageGetsItsPack | src/retrieval/coordinator.ts:287-313 | After any run, a last user message at a number of user messages not seen with it before is handed the first pending pack of its text |
| PackMatching.StartIsServedRight | src/retrieval/coordinator.ts:326-335 | An agent start is handed the first fresh pack of its prompt, never a queued one, and no barrier moves |
| PackMatching.HandedOutForItsText | src/retrieval/coordinator.ts:287-335 | In every run whatever was handed out went to a call or an agent start of the text it was built for, a start's being fresh |
| PackMatching.RefusedIff | src/retrieval/coordinator.ts:263-268 | After any run a pack is refused exactly when its id is pending, was handed out, or was dropped |
| PackMatching.StartGetsItsFreshPack | src/retrieval/coordinator.ts:740-750 | In any session an agent start gets only what was retrieved for its prompt outside a streaming run |
| PackMatching.RetrievedPackIsServed | src/retrieval/coordinator.ts:740-826 | In any session a pack just retrieved goes to the next agent start or new call of its text, when no earlier pack waits for it |
| PackMatching.PackIsNamedByItsOccurrence | src/retrieval/coordinator.ts:781-798 | In any session the first pack built for an input is named by its fingerprint, and the n-th by the hash of that and n |
| PackRegistry.EachPackIsHandedOutOnce | src/retrieval/coordinator.ts:227-355 | Over every run each id is handed out at most once, and every registered pack is exactly one of pending, handed out, dropped or cleared |
| PackRegistry.OldestMatchingPackIsHandedOut | src/retrieval/coordinator.ts:287-324 | A match hands out the first pending pack with the key, and leaves the others in order |
| PackRegistry.ReplayAfterAnyRunGetsNothing | src/retrieval/coordinator.ts:287-324 | A context call repeated with the same last user text and count gets nothing, after any events that do not evict its barrier |
| PackRegistry.ForgottenIff | src/retrieval/coordinator.ts:238-260 | Recording forgets an older barrier exactly when it is the oldest of a full table |
| PackRegistry.PackBuilder.Build | src/retrieval/coordinator.ts:781-826 | Each build counts one more occurrence of its input, names the pack by it, and keeps the items the fitting loop leaves |
| PackRegistry.BuiltPackFits | src/retrieval/coordinator.ts:800-826 | A built pack may be injected exactly when what it keeps can be counted; then it is under the cap or keeps no item, and every longer prefix was over |
| PackRegistry.FitIsLongest | src/retrieval/coordinator.ts:800-826 | The popping loop keeps the longest countable prefix under the cap; over the cap only with nothing left |
| PackRegistry.FingerprintNamesTheInput | src/retrieval/coordinator.ts:78-95 | With an injective hash the fingerprint determines text and behaviour |
| PackRegistry.OccurrenceIdsDiffer | src/retrieval/coordinator.ts:97-104 | With an injective hash different inputs or occurrences have different pack ids |
| PackRegistry.BuiltPacksAreAdmitted | src/retrieval/coordinator.ts:781-798 | After any run of builds, matches and drops, a newly built pack is never refused |

## Left out

- Lock files: one owner per state directory is assumed.
- The file system: a rewrite leaves the old or the new bytes; fsync, rename and permissions are not modelled.
- Journal and state-file text: files hold lists and maps of values, so corrupt lines and schema migration beyond unsupported job versions are absent.
- Network, JSON-RPC and timeouts: a write takes effect before its reply or fault is seen, or never.
- Foreign writers: others may write any path until it is ours; a path once ours is not written by anyone else.
- Hashing is taken as injective where a theorem needs it, and JSON chunk text as a lossless value; regular expressions for secrets, redaction spans and redaction counts are not modelled.
- src/privacy/redaction.ts, src/privacy/audit-store.ts and src/outbox/cursor.ts: no part of the state the theorems above are about.
- Audit events, notices, status text, configuration, scope discovery and commands: they change no control flow of the modelled parts.
- Model calls, prompts and tokenizers: any reply or failure, and any token count.
- Strings are sequences of Unicode scalar values; lone surrogates are not modelled.
- Entry type, timestamp and role in backups, the manifest's update time and omission texts, issue details and the order of unexpected chunk numbers: they take no part in the verdict.
- Rejecting a proposal, the operation log, and writers that race a proposal transition: the approve and undo transactions carry the claim.
- ProposalRecovery.UndoRecoversIff: a target that can be read is taken to be a document this program wrote, and a proposal is not one of its own targets.
- State-file faults of the observer, the coordinator and the reflection engine: only whole-process deaths are modelled there.
- BoardSafety.CursorNeverPassesAMessage: speaks of message ids, because deduplication does; of paths it holds under the condition of BoardSafety.EveryPathIsHandledIff.
- BoardSafety.EveryPathIsHandledIff: assumes positive page and backlog limits, as the constants of the program are.
- BoardSafety.HonestRun: the delivery runs assume of the feed that a page lists every change between the cursor it was asked for and the one it returns; nothing is assumed of the listing.
- Board acknowledgments and local collection come between cycles, or between a crash and a restart, not between two reads of one cycle.
- Observer runs: no event comes between the end of a run and the `finally` that frees its operation id.
- SchedulerSafety.NoEntryIsExtractedTwice: has no death inside acceptance, where it is false (SchedulerSafety.TwoJobsIff).
- BackupRoundTrip.CaptureThenVerify: speaks of the backend once every queued job was delivered or, on another content, quarantined; needs a collision-free checksum; and the ceiling of 999999 chunk numbers bounds the probe only.
- BackupCapture.Engine.Capture: the state file is one saved value; the omission records of other sessions are separate engines.
- Reflection.EveryRecordIsSomewhere: assumes that a record is not notified again once forgotten, and that set identity distinguishes record lists; without the first, Reflection.NothingIsEverLost.
- Merge proposals of a reflection: a refused one stops acceptance, but their payloads and paths are not modelled.
- OutboxSafety.SendOrder: runs start from an empty journal.
- TickCoalescing.SummaryIsFresh: time is a counter of calls and starts; the worker's interval timer is a caller like any other.
