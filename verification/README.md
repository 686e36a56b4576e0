# Proofs about RocketCatShell's bridge state and updater

This project models the parts of RocketCatShell that must survive crashes, interleavings and full
queues, and proves what they keep.

* **Hot store** (`Hot*.dfy`). `RuntimeStateEngine` keeps id maps, a FIFO message window, message tables
  with a latest-by-(context, sender) index, and room bindings. `HotState` gives the tables as one value
  and each locked call as a function; `HotEngine` is the class that updates dictionaries and deques in
  place and is proved against those functions. The central result is that recovery from a fuzzy
  snapshot, captured while records are still queued, is exact (`HotRecovery`); `HotDurability` carries
  it through runs with crashes, torn frames, purges and restarts, and `HotEndToEnd` down to the bytes.
* **Journal** (`JournalFrames.dfy`, `JournalWriter.dfy`). Length-prefixed frames and the writer loop
  that merges batches.
* **Id map** (`IdMapWindow.dfy`, `DurableMap.dfy`). The simpler `DurableIdMap`, which sorts and compacts
  surrogate ids, and its agreement with the engine's deque.
* **Update transaction** (`Update*.dfy`). Disk state, helper, watchdog and application as one transition
  system in which a crash or an exception can follow, or fall inside, any disk step.
* **Message path** (`InboundWorkers.dfy`, `SegmentSend.dfy`, `ForwardDelivery.dfy`, `ForwardFlatten.dfy`,
  `ForwardParser.dfy`). Per-room inbound workers, segments to sends, and merged forwards.
* **Bounded structures** (`LogDispatcher.dfy`, `MediaLru.dfy`).

`dafny verify dfyconfig.toml` checks everything. Classes and loops in the source are classes and loops
here, each proved against a function of the old state; the theorems are lemmas about those functions.
Ghost fields (journals, logs of submitted, taken and dropped items) remember history for the proofs.
Server answers, health results, what a torn copy leaves behind, thread setting and the outcome of
translating an item are parameters, so every theorem holds for all of them.

## Where the code keeps less than one might expect

Each of these is a lemma, with an exact condition where one is stated:

* Replay ignores an `id_put` whose key exists, so a source evicted and allocated again inside a long
  overlap can break exact recovery (`HotRecovery.ReallocationBreaksReplay`; `HotLongOverlap.LongOverlap`
  says when ids and window come back all the same); a message put in a long overlap before its
  allocation there may come back (`HotLongOverlap.LongOverlap`).
* Ids with surrounding white space are stored under themselves and indexed under their stripped form
  (`HotIndex.UnstrippedSourceBreaksIndex`, exact condition in `HotIndex.PutFollowsLogIff`). A mapping for the empty source id is not replayed
  (`HotJournal.StepRefines`).
* A context rebound under another surrogate id loses a binding at the next snapshot
  (`HotSnapshot.BindKeepsContextIndex`).
* If the journal is shorter than the snapshot, rooms and messages can fall back to an older state
  (`HotShortJournal.ShortJournalState`).
* Any private surrogate binding in a snapshot counts as legacy user state, so start-up empties the
  message tables (`HotRecovery.RecoveryIsExact`, `HotDurability.StartUpAfterCrash`).
* After a purge, a crash between the next snapshot and the truncation of the journal can bring purged
  messages back (`HotAfterPurge.PurgedMessageComesBack`, exact condition in
  `HotAfterPurge.CrashAfterPurge`).
* Whatever is appended behind a torn frame is lost until the journal is truncated
  (`JournalFrames.AppendAfterTornFrame`, exact condition in `JournalFrames.AppendAfterCut`). A converse
  for the records alone would depend on the codec: with some, torn and appended bytes decode.
* A candidate that does not validate leaves the transaction `recovery_required` with no backup; from
  then on every start is refused, although nothing was replaced (`UpdateRecovery.ApplyFailureOutcome`,
  `UpdateRecovery.StuckForever`), unless the transaction file cannot be read: then it is skipped and the
  application starts (`UpdateRecovery.SkippedStart`).
* A failing step of recovery, while it only has to close a transaction that replaced nothing, leaves the
  installation stuck too (`UpdateCrashPoints.RecoveryFailureOutcome`).
* Mentions are not sent at all with a message without a quote and without text that is not blank
  (`SegmentSend.MentionOfImageLost`, exact condition in `SegmentSend.MentionsAtMostOnce`).

## Model

| member | source | states |
|---|---|---|
| `HotRecovery.OverlappingReplay` | rocketcat_shell/bridge/hot_storage.py:503-532 | the snapshot may be captured while records are still queued: replaying the overlap and what follows over the captured engine ends exactly in the live engine, for id maps, window order, message tables, latest index and room bindings |
| `HotRecovery.HarmlessExactly` | rocketcat_shell/bridge/hot_storage.py:503-532 | an overlap of at most a window, or a longer one that refills it, replays without effect if and only if it meets the condition of OverlappingReplay |
| `HotOverlap.ShortOverlap` | rocketcat_shell/bridge/hot_storage.py:1071-1099 | an overlap with at most a window of message allocations replays without any effect if and only if every message put in it is still retained at capture |
| `HotLongOverlap.LongOverlap` | rocketcat_shell/bridge/hot_storage.py:1196-1230 | a longer overlap turns the window over once more; if none of its first allocations is of a source it still meets among the captured ones, which is so in particular when it allocates none twice, all ids and the window order come back, and everything else does if and only if the last put of every message comes after its allocation, or the message is pushed out of the window again before the end of replay, which depends only on where in the overlap it is put and allocated |
| `HotLongOverlap.LongOverlapNeedsIds` | rocketcat_shell/bridge/hot_storage.py:1183-1194 | in a longer overlap, repeated allocations or not, a put message whose id it never allocates comes back on replay although it had been evicted |
| `HotRecovery.ReallocationBreaksReplay` | rocketcat_shell/bridge/hot_storage.py:1087-1097 | the condition on allocations is needed: with window 2 and allocations a, b, c, a, d, c, b the recovered window differs from the live one |
| `HotRecovery.RecoveryIsExact` | rocketcat_shell/bridge/hot_storage.py:1548-1591 | start-up from the exported snapshot and any framing of the journal ends in the last journalled state, minus message tables and private surrogate bindings when legacy user state is suspected |
| `HotDurability.CrashRecoveryExact` | rocketcat_shell/bridge/hot_storage.py:391-532 | for every run of mutations, enqueues, writes, flushes, snapshot replacements, truncations, unrecorded refills, and restarts after crashes, torn frames and purges, from any running engine: if the readable journal is empty or reaches the capture point behind a harmless overlap, what is read back is the engine after the last readable or captured mutation; exactly if nothing was purged since the journal began, up to the private rooms by surrogate if these were refilled since the last start that purged or found no journal, and in all that a purge leaves in any case |
| `HotDurability.CrashAfterFirstStart` | rocketcat_shell/bridge/hot_storage.py:603-619 | the same from the very first start, without any files |
| `HotDurability.StartUpAfterCrash` | rocketcat_shell/bridge/hot_storage.py:1548-1591 | the same through the start-up code, rebuilt indexes and final trim included: it ends in the purge of that engine exactly when legacy user state is suspected, and the run goes on from there on the same journal file |
| `HotDurability.StepKeeps` | rocketcat_shell/bridge/hot_storage.py:391-532 | what every single event keeps, restarts included: where queue, file, torn frame and snapshot stand in the history, that the live engine is the replay of it since the last purge, and that a purge not yet followed by a new snapshot is suspected again |
| `HotEndToEnd.CutAnywhere` | rocketcat_shell/bridge/hot_storage.py:391-599 | from bytes to engine: the file is cut at any byte behind what was flushed, the whole frames before the cut are read, and start-up over the last snapshot ends in the engine after the last of them or in its purge, if recovery from there is exact; a cut before the capture point ends, for an overlap of at most a window, in what ShortJournalState describes |
| `HotEndToEnd.CrashBehindTornFrame` | rocketcat_shell/bridge/hot_storage.py:391-599 | once a frame is torn, whatever bytes were appended since: if they do not complete it to a readable frame, start-up ends where the readable part does |
| `HotEndToEnd.FileOfWriter` | rocketcat_shell/bridge/hot_storage.py:391-471 | the frames of a writer session, behind those of an earlier one unless truncated, hold the prefix of the history that the writer has processed |
| `HotAfterPurge.CrashAfterPurge` | rocketcat_shell/bridge/hot_storage.py:503-532 | a crash between the replacement of the snapshot by one of a purged engine and the truncation of the journal, however much of the journal is readable up to the capture: ids and window are the captured ones; every message put in that part is back, so messages are those of the snapshot if and only if each of these is retained there as put last; if legacy users are not suspected again nothing is purged and the private rooms by surrogate are those it binds; the other rooms are the captured ones when the journal reaches the capture |
| `HotAfterPurge.PurgedMessageComesBack` | rocketcat_shell/bridge/hot_storage.py:503-532 | a run of seven events at whose end the live engine has no message and start-up brings a purged one back |
| `HotShortJournal.ShortJournalKeepsIds` | rocketcat_shell/bridge/hot_storage.py:503-532 | a crash that leaves a journal shorter than the snapshot still brings back all id maps, counters and the window order exactly, for an overlap of at most a window of allocations |
| `HotShortJournal.ShortJournalState` | rocketcat_shell/bridge/hot_storage.py:503-532 | what else comes back then, whatever was purged or refilled before: message contents and both private-room tables are the captured ones if and only if what the surviving part wrote last is what was captured; context rooms hold their captured binding or the one where the journal stops |
| `HotShortJournal.StartUpShortJournal` | rocketcat_shell/bridge/hot_storage.py:1548-1591 | the start-up code over such files ends in exactly that engine, or in its purge |
| `HotShortJournal.ShortReplayOfMessages` | rocketcat_shell/bridge/hot_storage.py:1183-1194 | with only the first part of an overlap replayed, message contents stay as captured if and only if each message it puts is retained as it put it last, the list with its order if and only if these are the newest |
| `HotShortJournal.ShortReplayOfRooms` | rocketcat_shell/bridge/hot_storage.py:980-1040 | the same for the rooms, over an engine in which a purge or a refill may have changed the private rooms by surrogate |
| `HotRooms.RoomsReplayHarmless` | rocketcat_shell/bridge/hot_storage.py:980-1040 | replaying binds over tables that already have them changes nothing: last write wins for private rooms, the timestamp guard settles context rooms |
| `HotRooms.ShortReplayOfPrivateRooms` | rocketcat_shell/bridge/hot_storage.py:980-988 | when the journal stops early, either private-room table stays as captured if and only if the missing part writes no other room under a key of the replayed part |
| `HotRooms.ShortReplayOfContextRooms` | rocketcat_shell/bridge/hot_storage.py:1026-1040 | when the journal stops early, no context is lost or changes its surrogate id, and each holds its captured binding or the one it had where the journal stops |
| `HotNewestBind.BindContextWins` | rocketcat_shell/bridge/hot_storage.py:1026-1040 | a bind of a context that is bound leaves the binding on record only if it carries a timestamp below that one's, 0 if that has none; otherwise it replaces it, and no other context is touched |
| `HotNewestBind.NewestBindStands` | rocketcat_shell/bridge/hot_storage.py:1026-1040 | over any run of mutations a context ends bound exactly if some mutation binds it, and by the bind than which no later one is as new, while it is as new as those before it, back to the last without a timestamp |
| `HotNewestBind.GreatestTimestampWins` | rocketcat_shell/bridge/hot_storage.py:1026-1040 | if all binds of the context carry timestamps that is the last one among those with the greatest |
| `HotNewestBind.UntimedBindWins` | rocketcat_shell/bridge/hot_storage.py:1026-1040 | a bind without a timestamp wins over whatever came before |
| `HotCalls.AllocateMeans` | rocketcat_shell/bridge/hot_storage.py:824-841 | a room, thread or context keeps its id, a new one gets the next one above the offset of its namespace, in both directions, and nothing else changes |
| `HotCalls.ReplayedIdMeans` | rocketcat_shell/bridge/hot_storage.py:1071-1099 | a replayed id of these is taken over and raises the counter to itself; an empty source, an id that is not positive and a source with an id are passed over |
| `HotCalls.PutStores` | rocketcat_shell/bridge/hot_storage.py:1183-1194 | a put stores the entry under its source and its id in place of what was there, and adds or changes nothing else in the two tables of entries |
| `HotCalls.LegacyTraces` | rocketcat_shell/bridge/hot_storage.py:1100-1120 | which records count as traces of legacy users: user ids, and ids of the user range in messages and private rooms |
| `HotCalls.FinishMeans` | rocketcat_shell/bridge/hot_storage.py:782-788 | what start-up ends with after replay: everything, or, with a private room by surrogate in the snapshot or a trace in the journal, everything but messages and private rooms by surrogate |
| `HotPuts.PutAllIdempotent` | rocketcat_shell/bridge/hot_storage.py:1183-1194 | a run of message puts replayed over its own result leaves list and order as they are |
| `HotPuts.ReplayedPuts` | rocketcat_shell/bridge/hot_storage.py:1183-1257 | with evictions in between, replaying the puts changes nothing if and only if every put source is still retained |
| `HotPuts.PutAgain` | rocketcat_shell/bridge/hot_storage.py:1183-1194 | putting some messages again changes nothing if and only if they are the newest retained ones, as put last |
| `HotJournal.StepRefines` | rocketcat_shell/bridge/hot_storage.py:808-841 | replaying what one live operation recorded reproduces its effect if and only if it did not create a mapping for the empty source id, which replay skips |
| `HotJournal.JournalRefinesLive` | rocketcat_shell/bridge/hot_storage.py:85-165 | for every run of direct calls and non-interleaved batches with a constant window, replaying the enqueued records gives the live engine, evictions and refused stale context binds included |
| `HotJournal.GroupingIrrelevant` | rocketcat_shell/bridge/hot_storage.py:1052-1069 | how mutations are grouped into single and batch records does not matter to replay |
| `HotJournal.CoalescingIrrelevant` | rocketcat_shell/bridge/hot_storage.py:438-459 | merging batches into one frame does not change what the journal replays to |
| `HotCommitOrder.CommitOrderIrrelevant` | rocketcat_shell/bridge/hot_storage.py:85-98 | however batches interleave and in whatever order they commit, once all have committed replay gives the live room, thread and context tables, counters included |
| `HotHistory.StepKeepsRunning` | rocketcat_shell/bridge/hot_storage.py:824-841 | one recorded mutation keeps order deque, forward and reverse map and message tables functions of one list of slots and one list of retained messages |
| `HotHistory.RunKeepsRunning` | rocketcat_shell/bridge/hot_storage.py:1196-1209 | after any recorded run the window holds exactly the newest slots of old and new ones together, under consecutive ids |
| `HotWindow.ReceiveShape` | rocketcat_shell/bridge/hot_storage.py:824-841 | a fresh message mapping enters the window at the end and pushes out at most the oldest, messages included |
| `HotIndex.RemoveFollowsLog` | rocketcat_shell/bridge/hot_storage.py:1232-1257 | removing a message updates all four tables as removal from the list of retained messages would |
| `HotIndex.PutFollowsLog` | rocketcat_shell/bridge/hot_storage.py:1183-1194 | a put or re-put, whatever context or sender it changes, moves the entry to the end of that list |
| `HotIndex.PutFollowsLogIff` | rocketcat_shell/bridge/hot_storage.py:1183-1194 | for any entry, the put follows the list if and only if stripping leaves its source alone or it is not indexed at all |
| `HotIndex.LatestIsNaiveScan` | rocketcat_shell/bridge/hot_storage.py:1259-1293 | the latest entry of a (context, sender) is the most recently put message a scan would find, the pair's deque lists exactly its messages once, an empty pair is in neither table |
| `HotIndex.UnstrippedSourceBreaksIndex` | rocketcat_shell/bridge/hot_storage.py:1259-1270 | an instance of the other case: the source has surrounding white space, and evicting another message of the pair loses it from the index |
| `HotSnapshot.SnapshotRoundTrip` | rocketcat_shell/bridge/hot_storage.py:650-771 | loading an exported snapshot gives the engine back, both rebuilt indexes included, in whatever order dictionaries are walked |
| `HotSnapshot.BindKeepsContextIndex` | rocketcat_shell/bridge/hot_storage.py:1026-1040 | a bind keeps the two context-room tables inverse, as the snapshot needs, if and only if it neither changes the surrogate id of its context nor takes another's |
| `HotSnapshot.StaleSurrogateLost` | rocketcat_shell/bridge/hot_storage.py:755-771 | without that a snapshot loses a binding |
| `HotEngine.RuntimeStateEngine.constructor` | rocketcat_shell/bridge/hot_storage.py:603-619 | an engine starts empty with a positive window |
| `HotEngine.RuntimeStateEngine.RefreshLatest` | rocketcat_shell/bridge/hot_storage.py:1278-1293 | pops sources without an entry until the newest retained message of the pair is found |
| `HotEngine.RuntimeStateEngine.RemoveMessageEntry` | rocketcat_shell/bridge/hot_storage.py:1232-1257 | the new message tables are those of the specified removal |
| `HotEngine.RuntimeStateEngine.IndexLatestEntry` | rocketcat_shell/bridge/hot_storage.py:1259-1270 | the entry becomes the last and the latest of its pair |
| `HotEngine.RuntimeStateEngine.PutWithoutRecord` | rocketcat_shell/bridge/hot_storage.py:1183-1194 | a put in place, equal to the specified put |
| `HotEngine.RuntimeStateEngine.TrimMessageWindow` | rocketcat_shell/bridge/hot_storage.py:1196-1230 | evicts oldest first until the window fits, and counts the evictions |
| `HotEngine.RuntimeStateEngine.AllocateWithoutRecord` | rocketcat_shell/bridge/hot_storage.py:824-841 | an existing id is returned unchanged, a new one is the counter's next |
| `HotEngine.RuntimeStateEngine.AllocateMapping` | rocketcat_shell/bridge/hot_storage.py:808-822 | the change and, only if a mapping was created, its record |
| `HotEngine.RuntimeStateEngine.PutMessageEntry` | rocketcat_shell/bridge/hot_storage.py:876-890 | the put and its record |
| `HotEngine.RuntimeStateEngine.BindPrivateRoomRecorded` | rocketcat_shell/bridge/hot_storage.py:962-978 | the bind and its record |
| `HotEngine.RuntimeStateEngine.BindContextWithoutRecord` | rocketcat_shell/bridge/hot_storage.py:1026-1040 | a bind with a timestamp below the one on record is refused, every other one is what the context has afterwards |
| `HotEngine.RuntimeStateEngine.BindContextRoomRecorded` | rocketcat_shell/bridge/hot_storage.py:998-1024 | a refused bind is not recorded |
| `HotEngine.RuntimeStateEngine.ApplyIdPut` | rocketcat_shell/bridge/hot_storage.py:1071-1099 | an id that is already mapped is left alone, a new one raises the counter to itself |
| `HotEngine.RuntimeStateEngine.ApplyMutation` | rocketcat_shell/bridge/hot_storage.py:1052-1069 | one replayed mutation has its specified effect and leaves the journal alone; traces of legacy users are remembered |
| `HotEngine.RuntimeStateEngine.ReplayJournal` | rocketcat_shell/bridge/hot_storage.py:773-775 | the records are applied in order, batch by batch |
| `HotEngine.RuntimeStateEngine.ExportSnapshotPayload` | rocketcat_shell/bridge/hot_storage.py:650-685 | the payload is a copy of one moment's tables |
| `HotEngine.RuntimeStateEngine.LoadSnapshotPayload` | rocketcat_shell/bridge/hot_storage.py:687-771 | tables as in the payload, both indexes rebuilt; a window of 0 keeps the engine's own |
| `HotEngine.RuntimeStateEngine.PurgeLegacyUserDependentState` | rocketcat_shell/bridge/hot_storage.py:782-788 | empties the message tables and private surrogate bindings and nothing else |
| `HotEngine.RuntimeStateEngine.RebuildMessageWindow` | rocketcat_shell/bridge/hot_storage.py:843-865 | trims only, reports what it removed, and enqueues a message_rebuild record with the mappings left exactly when something was removed |
| `HotEngine.MutationBatch.GetOrCreateMapping` | rocketcat_shell/bridge/hot_storage.py:85-98 | changes the engine at once and collects the mutation |
| `HotEngine.MutationBatch.PutMessageEntry` | rocketcat_shell/bridge/hot_storage.py:144-151 | changes the engine at once and collects the mutation |
| `HotEngine.MutationBatch.BindPrivate` | rocketcat_shell/bridge/hot_storage.py:100-116 | changes the engine at once and collects the mutation |
| `HotEngine.MutationBatch.BindContext` | rocketcat_shell/bridge/hot_storage.py:118-142 | a refused bind is not collected |
| `HotEngine.MutationBatch.Commit` | rocketcat_shell/bridge/hot_storage.py:153-161 | enqueues everything collected as one record, once |
| `HotStartUp.BuildRuntimeHotStores` | rocketcat_shell/bridge/hot_storage.py:1548-1591 | start-up on the engine itself, a snapshot without a window included, ends in a state that the recovery theorems speak about; only a smaller configured window is recorded |
| `JournalFrames.TornTail` | rocketcat_shell/bridge/hot_storage.py:538-599 | for every list of records and every byte cut exactly the records whose length and payload lie wholly before the cut are read back |
| `JournalFrames.CleanAppend` | rocketcat_shell/bridge/hot_storage.py:398 | a journal reopened behind whole frames reads as the earlier records followed by the new ones |
| `JournalFrames.AppendAfterCut` | rocketcat_shell/bridge/hot_storage.py:398 | reopened behind a cut at any byte: on a frame boundary all records count; inside a frame only those before the cut do, if and only if the torn and the appended bytes form no readable frame, which holds behind a whole header until as many bytes as were torn off have been appended |
| `JournalFrames.ReadBehindCut` | rocketcat_shell/bridge/hot_storage.py:545-599 | whatever bytes follow a cut, the records wholly before it come first, and then what the torn bytes and those behind them read as |
| `JournalFrames.FullRoundTrip` | rocketcat_shell/bridge/hot_storage.py:538-599 | a whole journal reads back as written |
| `JournalFrames.IterRecords` | rocketcat_shell/bridge/hot_storage.py:545-599 | the reading loop returns what the recursive definition of a journal's records says, for any bytes |
| `JournalFrames.LawfulCodec` | rocketcat_shell/bridge/hot_storage.py:538-542 | the condition on the serialisation of the records written can be met for up to 2^32 records of any type, journal records among them |
| `JournalFrames.HeaderLength` | rocketcat_shell/bridge/hot_storage.py:539-542 | the 4-byte little-endian length is recovered for every length below 2^32 |
| `JournalFrames.AppendAfterTornFrame` | rocketcat_shell/bridge/hot_storage.py:398 | an instance of a frame torn behind its header: the record appended next is lost and garbage is returned |
| `JournalWriter.FlushCoversEarlier` | rocketcat_shell/bridge/hot_storage.py:279-301 | when the event of a flush or stop is set on a healthy writer, everything enqueued before it has been written, and the written mutations are a prefix of the enqueued ones |
| `JournalWriter.FramesReplayLikeRecords` | rocketcat_shell/bridge/hot_storage.py:438-465 | at any time in a session of a healthy writer its frames, merged or not, replay like the records it has processed, which are the first of those enqueued |
| `JournalWriter.JournalPersistenceWorker.Enqueue` | rocketcat_shell/bridge/hot_storage.py:225-233 | an item is accepted at the end of the queue or refused when the queue is full |
| `JournalWriter.JournalPersistenceWorker.Coalesce` | rocketcat_shell/bridge/hot_storage.py:438-458 | takes the batches that directly follow, in order and as long as there are any, at most 32 in all; the first other item is deferred, not lost |
| `JournalWriter.JournalPersistenceWorker.WriteRecord` | rocketcat_shell/bridge/hot_storage.py:459-471 | one more frame, for exactly the items taken off; a single record is written as it is |
| `JournalWriter.JournalPersistenceWorker.Command` | rocketcat_shell/bridge/hot_storage.py:417-436 | everything written has left the buffer before the event is set; a stop also replaces the snapshot and empties the journal |
| `JournalWriter.JournalPersistenceWorker.RunOnce` | rocketcat_shell/bridge/hot_storage.py:391-471 | one turn of the loop keeps: enqueued items are the processed ones followed by deferred and queued ones, written mutations are those of the processed items, frames plus merged batches count the records, fewer than flushEvery frames are unflushed; a waiting item always makes progress; a snapshot replaces the last one and empties the journal exactly when a stop asks for it, the journal file is full, or snapshotEvery records have been written since the last one and the writer is idle or less than a quarter of the queue is taken; the file is flushed exactly when the writer is idle, at a command, at flushEvery records or with a snapshot |
| `JournalWriter.JournalPersistenceWorker.WriteSnapshotAndRotate` | rocketcat_shell/bridge/hot_storage.py:503-532 | the snapshot file holds what the provider captured, and the journal file is empty |
| `JournalWriter.JournalPersistenceWorker.Die` | rocketcat_shell/bridge/hot_storage.py:472-485 | whoever waits for a command is released, the one in hand, the deferred one and the queued ones included |
| `IdMapWindow.MaintainMeans` | rocketcat_shell/bridge/id_map.py:177-248 | maintenance leaves the newest slots that fit; forced, or once the counter has reached twice the window, they are renumbered from one on and the counter with them, otherwise ids and counter stay |
| `IdMapWindow.DequeRefinesSortedWindow` | rocketcat_shell/bridge/id_map.py:177-220 | for the same allocations, window changes and rebuilds, forced or not, the hot engine's deque and this sorting window retain the same sources in the same order and report the same removed counts |
| `IdMapWindow.SameWindowFromStart` | rocketcat_shell/bridge/id_map.py:177-220 | the same for both stores as they are created |
| `IdMapWindow.CompactionBounds` | rocketcat_shell/bridge/id_map.py:222-248 | with a constant window, after any calls exactly the newest min(window, created) sources remain in creation order, every id lies in base+1..base+2*window-1, counter + window * compactions equals the creations |
| `IdMapWindow.CompactionFromStart` | rocketcat_shell/bridge/id_map.py:222-248 | the same from an empty map, with no source and no id twice, ids increasing and none above the counter |
| `IdMapWindow.RecordBounded` | rocketcat_shell/bridge/id_map.py:86-112 | the same as an invariant of a single call, ids consecutive and ending at the counter |
| `DurableMap.DurableIdMap.GetOrCreateMapping` | rocketcat_shell/bridge/id_map.py:86-112 | the returned id is the one after maintenance, and belongs to the newest slot |
| `DurableMap.DurableIdMap.MaintainMessageWindow` | rocketcat_shell/bridge/id_map.py:177-220 | dictionaries after trimming and compaction, and each field of the report |
| `DurableMap.DurableIdMap.DropOverflow` | rocketcat_shell/bridge/id_map.py:190-197 | exactly the lowest surrogate ids leave both dictionaries |
| `DurableMap.DurableIdMap.CompactMessageWindow` | rocketcat_shell/bridge/id_map.py:222-248 | ids are renumbered in order, changed says whether any differs, an empty window resets the counter |
| `DurableMap.SortedReverse` | rocketcat_shell/bridge/id_map.py:192 | sorting the reverse map by id lists the sources in creation order |
| `UpdateSafety.UpdateSafety` | tools/update_helper.py:437-502 | for every run with crashes inside or between disk steps: completed means the candidate in every managed path, failed or rolled_back the original, the runtime marker agrees, and any difference from the original without completed implies a complete and exact backup |
| `UpdateSafety.StepSafe` | tools/update_helper.py:225-300 | every disk step of apply, backup, install, restore, watch and hand-off, every torn copy, every exception and every start that skips an unreadable transaction file keeps the invariant |
| `UpdateSafety.TearLeavesAnything` | tools/update_helper.py:225-300 | what a crash inside a copy or removal is taken to leave: anything at the path or copy in hand, an unreadable marker |
| `UpdateSafety.RunLeavesOthers` | tools/update_helper.py:214-222 | the loops over the managed paths never run past them: every other path keeps its content through every run, torn copies and failures included |
| `UpdateCrashPoints.CrashBeforeBackupComplete` | tools/update_helper.py:659-675 | from every reachable state, a crash at any step of an apply up to the one that announces the complete backup: the next start closes the transaction as failed, drops the hand-off and runs the untouched installation |
| `UpdateCrashPoints.CrashAfterBackupComplete` | tools/update_helper.py:602-633 | a crash at any later step of an apply that did not fail: the next start restores every managed path and watches the old version, unless the old marker cannot be read |
| `UpdateCrashPoints.CrashAloneIsRecovered` | tools/update_helper.py:636-692 | so a crash alone never leaves an installation stuck |
| `UpdateCrashPoints.CrashWhilePreparing` | rocketcat_shell/updates.py:704-746 | a crash while the application prepares an update ends in a failed transaction and the untouched installation |
| `UpdateCrashPoints.ApplicationRunsWhole` | tools/update_helper.py:437-692 | for every run with crashes and failures anywhere: the application never runs on a mixture of two versions, unless a start has skipped a transaction file it could not read |
| `UpdateCrashPoints.RecoveryFailureOutcome` | tools/update_helper.py:680-692 | a step of recovery that raises is recorded and the application does not start; the installation is stuck from then on if and only if there is no complete backup, also if nothing had been replaced |
| `UpdateCrashPoints.UnhealthyRollbackIsRetried` | tools/update_helper.py:590-598 | if the restored version does not become healthy either, the next start restores it and watches it again |
| `UpdateCrashPoints.ClosedStaysClosed` | tools/update_helper.py:646-657 | a completed, failed or rolled-back transaction is left alone by every later start |
| `UpdateRecovery.RecoveryStartsApplication` | tools/update_helper.py:636-692 | from every reachable state one uninterrupted recovery lets the application start if and only if the transaction is closed or early, or its backup is complete and the old marker readable |
| `UpdateRecovery.RecoveryConverges` | tools/update_helper.py:602-633 | with a complete backup recovery restores all managed files, the old version's marker and interpreter, clears the hand-off, and a healthy watch then ends rolled_back |
| `UpdateRecovery.EarlyOutcome` | tools/update_helper.py:658-675 | an early stage ends failed with the files untouched |
| `UpdateRecovery.IncompleteOutcome` | tools/update_helper.py:604-612 | without a complete backup recovery only records that and refuses to start |
| `UpdateRecovery.RecoveryIdempotent` | tools/update_helper.py:636-692 | from every reachable state, recovering twice leaves managed files, marker, hand-off, transaction, backup and processes as recovering once, also when recovery fails because the backup is incomplete or the old marker unreadable |
| `UpdateRecovery.StuckForever` | tools/update_helper.py:602-612 | an open transaction past the early stages without a backup never lets the application start again, whatever else happens, as long as recovery can read the transaction file; its files stay as they are |
| `UpdateRecovery.SkippedStart` | tools/update_helper.py:646-655 | a start that skips the unreadable transaction file runs the application on what is in place and closes nothing: whatever happens afterwards files, marker and open transaction stay, and once the process is gone the installation is stuck again |
| `UpdateRecovery.ApplyFailureOutcome` | tools/update_helper.py:476-502 | how an exception before replacement ends, step by step: stuck while the candidate is validated or the first status written; failed, startable and untouched from then until the backup is announced as complete; recoverable from its backup after that |
| `UpdateRecovery.SettleRuns` | tools/update_helper.py:636-692 | an uninterrupted recovery is a run of the transition system and ends |
| `UpdateApply.ApplyCompletes` | tools/update_helper.py:437-475 | an uninterrupted apply installs the candidate behind an exact backup, and a healthy target ends completed |
| `UpdateApply.PrepareHandsOff` | rocketcat_shell/updates.py:704-815 | preparing an update and handing off starts the helper on a transaction that waits for shutdown |
| `UpdateApply.UpdateIsPossible` | tools/update_helper.py:437-475 | from every reachable state with the application running and no open transaction, some run from prepare to the healthy watch ends completed with the candidate in every managed path and active |
| `UpdateApply.UnhealthyTargetIsRolledBack` | tools/update_helper.py:574-589 | an unhealthy target is replaced by the original at the next start |
| `UpdateHelper.Installation.BackUpAll` | tools/update_helper.py:225-254 | presence record, copies and marker are exact; an existing backup directory is refused |
| `UpdateHelper.Installation.InstallAll` | tools/update_helper.py:266-273 | all managed paths equal the candidate, or nothing was touched because the candidate is not whole |
| `UpdateHelper.Installation.RestorePaths` | tools/update_helper.py:276-290 | every managed path is as recorded, and when a copy is missing it fails |
| `UpdateHelper.Installation.RestoreRuntimeMarker` | tools/update_helper.py:291-300 | the old marker, rewritten for rollback monitoring, or failure if it is unreadable |
| `UpdateHelper.Installation.RecoverTransactions` | tools/update_helper.py:636-692 | the code's loops end where the uninterrupted run of the transition system ends; exit code 0 exactly when the application may start |
| `UpdateHelper.Installation.ApplyTransaction` | tools/update_helper.py:437-502 | the same for apply, and what a rejected candidate leaves behind |
| `UpdateSafety.PrepareSafe` | rocketcat_shell/updates.py:634-746 | preparing a switch, interrupted or failing anywhere, leaves the installation untouched and recoverable |
| `UpdateSafety.AppSafe` | rocketcat_shell/updates.py:768-815 | the hand-off starts the helper only for a transaction that waits for shutdown, and failing a prepared one is safe |
| `InboundWorkers.RoomOrder` | rocketcat_shell/bridge/rocketchat_client.py:646-710 | messages of a room are taken up in acceptance order, and those not taken up are exactly its messages still queued |
| `InboundWorkers.OneLiveWorker` | rocketcat_shell/bridge/rocketchat_client.py:581-596 | two live workers of one bucket are the same |
| `InboundWorkers.RocketChatClient.EnqueueIncomingMessage` | rocketcat_shell/bridge/rocketchat_client.py:646-678 | accepted at the end of its bucket's queue or counted as dropped when that is full; afterwards a bucket with messages has a worker, depth is the total queued or handed out but not begun, and every accepted message is queued, in hand or done with |
| `InboundWorkers.RocketChatClient.EnsureInboundWorker` | rocketcat_shell/bridge/rocketchat_client.py:581-596 | afterwards the bucket has a live worker, and no other one was touched |
| `InboundWorkers.RocketChatClient.TakeUp` | rocketcat_shell/bridge/rocketchat_client.py:685-689 | the head of the bucket leaves its queue for the worker's hand and still counts in the depth; nothing is lost on the way |
| `InboundWorkers.RocketChatClient.BeginMessage` | rocketcat_shell/bridge/rocketchat_client.py:692 | the worker resumes with that message and lowers the depth |
| `InboundWorkers.RocketChatClient.FinishMessage` | rocketcat_shell/bridge/rocketchat_client.py:695-710 | the message in hand is done with, raised or not |
| `InboundWorkers.RocketChatClient.Retire` | rocketcat_shell/bridge/rocketchat_client.py:685-691 | a worker may retire at any time without stranding a message: its completion callback is pending |
| `InboundWorkers.RocketChatClient.OnInboundWorkerDone` | rocketcat_shell/bridge/rocketchat_client.py:598-620 | the callback of a retired worker starts another one if messages are waiting |
| `SegmentSend.PlanTiles` | rocketcat_shell/bridge/rocketchat_client.py:1484-1527 | every segment belongs to exactly one text run, caption or media send, in input order; a text send says the texts of its segments, taken one by one and laid end to end, normalised; only blank runs send nothing, and a blank text goes out only for a quote |
| `SegmentSend.JoinAppend` | rocketcat_shell/bridge/rocketchat_client.py:1451 | the text of one run followed by another is the text of the first followed by that of the second |
| `SegmentSend.PlanCarries` | rocketcat_shell/bridge/rocketchat_client.py:1449-1482 | a given quote goes out with exactly one send, the first text send, and is not used up by blank text before it |
| `SegmentSend.MentionsAtMostOnce` | rocketcat_shell/bridge/rocketchat_client.py:1449-1482 | pending mentions go out with exactly one send if there is a quote or some maximal run of text, the possibly empty last one included, is not blank; otherwise with none |
| `SegmentSend.MentionOfImageLost` | rocketcat_shell/bridge/rocketchat_client.py:1449-1482 | an instance: an image alone with a mention and no quote goes out without the mention |
| `SegmentSend.CaptionRule` | rocketcat_shell/bridge/rocketchat_client.py:1495-1511 | an image takes the text behind it as caption if and only if nothing else follows, no quote was pending before the text in front of it was flushed and no mentions are pending after that |
| `SegmentSend.DeliverStops` | rocketcat_shell/bridge/rocketchat_client.py:1436-1447 | an attempt raises, comes back without an id or, strictly, comes back with nothing exactly when it is the last one of a failed delivery |
| `SegmentSend.DeliverCounts` | rocketcat_shell/bridge/rocketchat_client.py:1436-1447 | the count is the number of messages the server returned |
| `SegmentSend.LastIdReported` | rocketcat_shell/bridge/rocketchat_client.py:1436-1447 | the reported id is the last one that came back, strict or not, or else the one from before |
| `SegmentSend.StrictSuccessReportsLast` | rocketcat_shell/bridge/rocketchat_client.py:1436-1447 | a strict success reports the id of the last send |
| `SegmentSend.SendMessageSegments` | rocketcat_shell/bridge/rocketchat_client.py:1416-1527 | the loop over segments attempts exactly the planned sends, up to the first that aborts; a media segment without a file never reaches the server |
| `SegmentSend.CollectTrailingTextCaption` | rocketcat_shell/bridge/rocketchat_client.py:1529-1546 | the joined text behind an image if nothing but text follows, otherwise no caption and no progress |
| `ForwardDelivery.ItemSaysAll` | rocketcat_shell/bridge/onebot_actions.py:486-496 | an item goes out as a message of its own: every segment in order, its quote exactly once, its mentions with the first text |
| `ForwardDelivery.FailingItemStops` | rocketcat_shell/bridge/onebot_actions.py:453-525 | a failing item ends the forward: attempts are those of the items before it and a non-empty part of its own |
| `ForwardDelivery.SuccessReportsLastBody` | rocketcat_shell/bridge/onebot_actions.py:536-551 | on success every item went out in full and the id is the one of the last body message |
| `ForwardDelivery.Preflight` | rocketcat_shell/bridge/onebot_actions.py:380-423 | all items are translated or the whole forward is rejected; the first item that is not sendable decides how |
| `ForwardDelivery.SendItems` | rocketcat_shell/bridge/onebot_actions.py:453-551 | calls, result, position and count of the sequential loop for every behaviour of the server |
| `ForwardDelivery.SentMeans` | rocketcat_shell/bridge/onebot_actions.py:453-551 | what such an answer means: success, that every item went out in full and the id is that of the last message; failure, which item failed, that all before it went out in full, and how many messages came back |
| `ForwardDelivery.SendForwardInThread` | rocketcat_shell/bridge/onebot_actions.py:590-791 | one mapped header, outside any thread, precedes every body message, without it no body message is sent; with it the bodies are the calls, answer, id, failing item and count of the sequential loop in its thread |
| `ForwardDelivery.HandleForwardSend` | rocketcat_shell/bridge/onebot_actions.py:316-575 | unparsable nodes, a destination that cannot be looked up, or any item failing preflight mean that nothing is sent; otherwise, in a thread or not, fail-stop, with the last mapped id on success and the failing item and the number of messages returned on failure |
| `ForwardFlatten.ParseFlattens` | rocketcat_shell/bridge/forward_messages.py:36-50 | the items hold exactly the in-order leaves of the payload, however it is wrapped; none is empty, every segment is supported and has what its type needs, node numbers never decrease and are 1 to the number of outermost nodes |
| `ForwardFlatten.ListFlattensByNode` | rocketcat_shell/bridge/forward_messages.py:36-50 | for a list of nodes: the items numbered j hold exactly the leaves of the j-th node |
| `ForwardAccept.AcceptedExactly` | rocketcat_shell/bridge/forward_messages.py:36-189 | a payload is accepted if and only if it is good by structure: messages, however wrapped, that are nodes with an id or with content that is good in turn, down to supported segments |
| `ForwardAccept.WrappingIrrelevant` | rocketcat_shell/bridge/forward_messages.py:60-66 | an object around messages parses as its messages and a lone node as a list of one, outermost and nested |
| `ForwardFlatten.ContentFlattens` | rocketcat_shell/bridge/forward_messages.py:103-161 | the same for the content of one node, nested to any depth |
| `ForwardParser.ExpandMixed` | rocketcat_shell/bridge/forward_messages.py:135-159 | the buffering loop over a mixed list yields its maximal segment runs and, between them, what is nested |
| `ForwardParser.ExpandNode` | rocketcat_shell/bridge/forward_messages.py:84-100 | appends the items of a node and fails exactly when the node is not acceptable |
| `ForwardParser.ExpandContent` | rocketcat_shell/bridge/forward_messages.py:103-161 | appends the items of a content and fails exactly when it is not acceptable |
| `ForwardParser.AppendSegments` | rocketcat_shell/bridge/forward_messages.py:164-170 | one item with all segments valid, or failure |
| `ForwardParser.ParseForwardNodes` | rocketcat_shell/bridge/forward_messages.py:36-50 | the recursive appending code computes the specified items and rejects the same payloads |
| `ForwardParser.Revalidated` | rocketcat_shell/bridge/forward_messages.py:173-189 | validating a validated segment changes nothing, so buffering it first is harmless |
| `LogDispatcher.ClassesByLevel` | rocketcat_shell/logger.py:104-112 | the four classes in terms of the levels of the logging module |
| `LogDispatcher.ConservedPerClass` | rocketcat_shell/logger.py:53-112 | per level class, submitted equals handled plus queued plus dropped |
| `LogDispatcher.AsyncLogDispatcher.Submit` | rocketcat_shell/logger.py:53-62 | after a stop the record is only counted as dropped; otherwise it joins the queue of its kind or the rules for a full queue apply; both stay within capacity, in submission order, with every record accounted for |
| `LogDispatcher.AsyncLogDispatcher.SubmitNormal` | rocketcat_shell/logger.py:64-79 | no info is dropped while a debug is queued, and it is the oldest debug that gives way |
| `LogDispatcher.AsyncLogDispatcher.SubmitCritical` | rocketcat_shell/logger.py:81-102 | no error is dropped while a warning is queued; the oldest warning, or failing that the oldest error, gives way |
| `LogDispatcher.AsyncLogDispatcher.Next` | rocketcat_shell/logger.py:124-133 | critical records first, each class in order, the rest of both queues untouched; exit only when stopped and both queues are empty |
| `MediaLru.OldestIsLeastRecent` | rocketcat_shell/bridge/media_publication.py:212-217 | when the first entry must go, at least maxEntries other tokens were published or resolved after its last use |
| `MediaLru.MediaPublicationService.Publish` | rocketcat_shell/bridge/media_publication.py:60-110 | both dictionaries stay inverse and within the limit; an unchanged file keeps its token as the newest, any other gets the new one at the end; whatever leaves is its path's old token or the least recently used ones from the front, and all other entries stay as they are |
| `MediaLru.MediaPublicationService.Resolve` | rocketcat_shell/bridge/media_publication.py:126-153 | a current entry is returned and becomes the newest, a stale one is dropped; all others keep their order |
| `MediaLru.MediaPublicationService.InvalidateBot` | rocketcat_shell/bridge/media_publication.py:51-55 | exactly the bot's entries are gone |
| `MediaLru.MediaPublicationService.EvictOldEntries` | rocketcat_shell/bridge/media_publication.py:212-217 | only least recently used entries leave, from the front and no more than needed |
| `MediaLru.MediaPublicationService.RemoveToken` | rocketcat_shell/bridge/media_publication.py:204-210 | token and path leave together |

## Left out

- HotLongOverlap.LongOverlap: only for overlaps that refill the window (`HotLongOverlap.Refills`). Repeated allocations that do not can break exact replay (`ReallocationBreaksReplay`); exactly when they do is not stated.
- HotShortJournal.ShortJournalState: only for overlaps of at most a window of message allocations.
- HotDurability.CrashRecoveryExact: records reach the queue in the order in which the engine changed, so batches that interleave with other calls are outside its runs (for those, `HotCommitOrder.CommitOrderIrrelevant`). A run is not followed beyond a restart after which recovery is inexact (a non-empty journal shorter than the snapshot, a harmful overlap), nor beyond the one that `HotAfterPurge.CrashAfterPurge` describes. A torn frame is taken to stay unreadable; `HotEndToEnd.CrashBehindTornFrame` says for which bytes it does.
- HotDurability.StartUpAfterCrash: the configured window is the same at every start; a smaller one only trims (`HotStartUp.BuildRuntimeHotStores`).
- HotJournal.JournalRefinesLive: the window is constant, because its size is not journalled (hot_storage.py:804-806).
- HotCommitOrder.CommitOrderIrrelevant: not claimed for the message namespace, whose window order follows commit order on replay.
- JournalFrames.TornTail: pickle is a parameter; of the records written it must give a payload that is not empty, below 2^32 bytes and decoded to the same record.
- UpdateSafety.StepSafe: an update prepared while the file of an open transaction is unreadable to `prepare_switch` too is not modelled; one open transaction at a time is.
- UpdateSafety.UpdateSafety: rename is atomic and completed steps stay on disk; loss of unsynchronised writes at power failure is not modelled.
- MediaLru.MediaPublicationService.Publish: URL building and the cases without a WebUI port or base URL are not modelled.
- LogDispatcher.AsyncLogDispatcher.Next: handlers, their levels and their exceptions are not modelled.
- HotEngine.RuntimeStateEngine.RebuildMessageWindow: the replay of the `message_rebuild` record is not modelled.
- `rebuild_messages_for_active_mappings` and `MessageStore._rewrite_entry_surrogate`: the rewriting of entries is not part of this model.
- Legacy `user` id tables and the user identity registry; only the detection of their traces is modelled.
- Room, thread and context namespaces of `DurableIdMap`, the JSON store below it and the change callback: they add no window.
- Age limits of lookups, retry delays, queue time-outs, health time-outs: wall-clock values are free choices.
- Stopping the inbound side (`_stop_inbound_workers`, draining) and cancelled workers: the invariants are those of a running client.
- Download, extraction and the checks of `prepare_switch` before it writes the transaction file; dependency installation apart from its result.
- Real paths, symbolic links, permissions and tree contents: a managed path is one node, torn or whole.
- Seeding of built-in plugins by `docker/entrypoint.sh` between recovery and start.
- Transaction fields that only report (errors, times, action, asset hashes) and `image_version` in the runtime marker.
- White space around types and file references in forwarded segments, and object keys the parser does not read; the CQ codec is a parameter.
- Thread-mode formatting, message links, uploads and downloads behind one send; normalisation of text is a parameter.
- Diagnostics, metrics, high-water marks beyond the logger's, HTTP, WebSocket, DDP and the WebUI: no hard local property.
