# Commit protocol of the parallel Kafka consumer, in Dafny

The consumer finishes messages out of order, yet tells Kafka only one number per
partition: everything below this offset is done. This project models the code that
decides that number, and proves that it is never too high, however completions,
failing commits, rebalances and restarts interleave.

| file | what it models |
|---|---|
| `Common`, `Offsets`, `Text` | shared vocabulary: optional values, ascending sets, decimal and hexadecimal text |
| `TrackerState`, `OffsetTracker` | the per-partition tracker: as a value with its laws, and as the mutable class with its caches |
| `MetadataEncoder` | the run-length / bitset text that carries sparse completions in a commit |
| `CoordinatorState`, `CoordinatorRuns`, `CoordinatorCoverage`, `CommitCoordinator` | the asynchronous commit outbox: its synchronous sections, all interleavings at await points, what is never lost, the mutable class |
| `Handoff` | commit metadata, revoke preparation and the tracker an assignment rebuilds |
| `AtLeastOnce` | the whole protocol: any number of group members, one broker, every interleaving |
| `EpochFence` | what the epoch checks of the protocol separate, and what they do not |
| `ProtocolEffects` | what the steps achieve on trackers, candidates and stored commits, and the handover of a partition |
| `BrokerMember` | the broker-side loops over trackers |
| `Completion`, `CompletionRuns`, `Settlement` | completion events with the dead-letter retry ledger, whole runs of them, and the settlement ledgers |
| `TopologyState`, `WorkQueueTopology`, `Dispatch` | virtual queues with their redundant indexes, and how polled messages get there |
| `RebalanceBridge` | the timeout bridge between the callback thread and the event loop |
| `DlqCache` | the byte-budgeted payload cache |

Mutable objects of the program are classes whose methods are proved equal to functions
on a value (`State()`); what the program promises is proved about those functions over
whole runs.

Assumptions about the environment:

- Offsets are non-negative; a commit call may return, or raise after any part of it took
  effect; the broker returns positions and metadata as stored.
- The starting position that comes with an assignment, when no stored position is found,
  and its metadata, when no stored text is, are taken as given.
- A completion batch and its bookkeeping run under the control lock; a partition's revoke
  preparation and cleanup count as one step for the settlement ledgers.
- Offsets are not queued twice in one partition (`Fresh` in `TopologyState`), which is
  what makes the offset index of the queues well defined.
- Work manager, execution engine, clocks and dead-letter publishing are inputs: events,
  a lowest in-flight offset, a time, a boolean per publish.

Where code and documentation differ, the code is modelled:

- The documents require that a rebalance drops stale completions by an epoch mismatch
  (docs/blueprint/02-requirements.md:45). Every assignment builds a tracker whose epoch
  becomes 1, so the check drops a completion or candidate of an earlier assignment if and
  only if its partition is not tracked at that moment (`EpochFence`, with a run in which
  both get through). Delivery is therefore proved against the set of settled offsets.
- A pending offset is not monotone; it falls exactly when a failed batch returns over a
  newer candidate (`CoordinatorRuns.PendingFallsExactlyOnRetry`).
- Assigning a partition keeps the queue indexes exact exactly when nothing is queued for it
  (`TopologyState.AssignExactlyWhenDrained`).

## Model

| member | source | states |
|---|---|---|
| `AtLeastOnce.AtLeastOnceDelivery` | pyrallel_consumer/control_plane/broker_poller.py:787-1137 | After any run of any number of members (completions, synchronous and coordinator commits that return or raise, revokes, reassignments, restarts) every offset from a partition's first starting position up to the stored position has settled, and so has every offset the stored metadata lets a new owner skip |
| `AtLeastOnce.TrackersNeverRunAhead` | pyrallel_consumer/control_plane/offset_tracker.py:145-237 | In every run, every completed offset and every offset up to a tracker's committed one has settled |
| `AtLeastOnce.SettledOnlyByOutcome` | pyrallel_consumer/control_plane/broker_completion_support.py:179-260 | An offset counts as settled only through its own current-epoch event, and only if that event needs no dead-letter publish or the publish returned true |
| `AtLeastOnce.SettlementsWereCommitted` | pyrallel_consumer/control_plane/broker_commit_coordinator_support.py:138-163 | In every run of the group, a settlement that would move a tracker belongs to a broker commit that returned |
| `AtLeastOnce.FilteredBatchIsCurrent` | pyrallel_consumer/control_plane/broker_commit_coordinator_support.py:86-113 | A filtered batch commits exactly the partitions tracked in the candidate's own epoch, right past the candidate's offset, and every other candidate's lease is dead |
| `AtLeastOnce.StepSafe` | pyrallel_consumer/control_plane/broker_poller.py:787-1137 | Every step of one member keeps trackers, plans, candidates, prepared commits and the stored positions inside the settled prefix |
| `AtLeastOnce.MarkIsSettled` | pyrallel_consumer/control_plane/broker_dispatch_support.py:134-149 | Every offset up to a tracker's (in-flight clamped) high-water mark has settled |
| `AtLeastOnce.RevokeSafe` | pyrallel_consumer/control_plane/broker_rebalance_orchestration_support.py:184-209 | The commit prepared for a revoked partition, coordinator candidate included, covers only settled offsets, in its position and in its metadata |
| `AtLeastOnce.RebuildSafe` | pyrallel_consumer/control_plane/broker_rebalance_support.py:150-195 | A tracker built for an assignment from a safe stored commit starts clean and holds only settled offsets; of what the assignment brings along only what is used is taken as given |
| `AtLeastOnce.NothingInvented` | pyrallel_consumer/control_plane/commit_coordinator.py:206-393 | No coordinator action but enqueue brings a candidate into pending, in flight or the batch |
| `EpochFence.EpochIsAlwaysOne` | pyrallel_consumer/control_plane/broker_rebalance_support.py:179-193 | In every run of the group every tracker, installed or on its way, and every pending, in-flight, batch or settlement candidate is of epoch 1 |
| `EpochFence.StaleMeansUntracked` | pyrallel_consumer/control_plane/broker_commit_coordinator_support.py:91-102 | In every reachable world the epoch filter of a batch drops exactly the candidates of partitions that are not tracked |
| `EpochFence.CurrentMeansTracked` | pyrallel_consumer/control_plane/broker_completion_support.py:174-190 | A completion dispatched by any assignment is current at any later point of a run if and only if its partition is tracked then, by whatever assignment |
| `EpochFence.OldWorkGetsThrough` | pyrallel_consumer/control_plane/broker_rebalance_orchestration_support.py:111-273 | From every world in which a batch waits to be filtered: after its partition is revoked, cleaned up and assigned again, its candidate passes the filter and is sent, and completions from before the revoke are current |
| `EpochFence.EpochDoesNotSeparateAssignments` | pyrallel_consumer/control_plane/broker_rebalance_support.py:179-193 | A concrete run from the initial world, under any settings that give the outbox room for a partition, in which a candidate and a completion of the first assignment are taken for work of the second |
| `ProtocolEffects.PartitionChangesHands` | pyrallel_consumer/control_plane/broker_rebalance_orchestration_support.py:163-239 | From one member to another: after a tracked partition is revoked and its commit stored, whoever builds the assignment with a lookup starts right behind the furthest position known to be done, past the contiguous prefix, and holds exactly the lowest offsets the first had completed past it, none only when neither text of them fits |
| `ProtocolEffects.CompletionSettlesExactly` | pyrallel_consumer/control_plane/broker_completion_support.py:191-256 | A current completion settles its offset, and completes it if it is past the committed one, exactly when the event is a success, or dead letters are off, or attempts are below the maximum, or the publish returned true; no other tracker moves |
| `ProtocolEffects.PlanIsFurthest` | pyrallel_consumer/control_plane/broker_dispatch_support.py:134-149 | A planned offset lies past the committed one and below the lowest in flight, everything through it is done, and no further offset would do; a partition is not planned only if nothing further would do |
| `ProtocolEffects.PlanningTakesEffect` | pyrallel_consumer/control_plane/broker_poller.py:807-817 | A planning step makes exactly that plan for the partitions it is about, and moves no tracker |
| `ProtocolEffects.FetchTakesEffect` | pyrallel_consumer/control_plane/offset_tracker.py:309-323 | A fetch raises the fetched offset of its tracker to the further one, and nothing else |
| `ProtocolEffects.SentCarries` | pyrallel_consumer/control_plane/broker_support.py:279-325 | A commit goes right past the planned offset and its text carries the lowest completions past it up to the cap, none only when neither text of them fits, and no text with snapshots off |
| `ProtocolEffects.SyncCommitTakesEffect` | pyrallel_consumer/control_plane/broker_poller.py:1059-1122 | A synchronous commit that returns leaves the position past the plan and the completions past it at the broker and the tracker advanced through the plan, for every planned and tracked partition and no other |
| `ProtocolEffects.FailedSyncMovesNothing` | pyrallel_consumer/control_plane/broker_poller.py:1117-1137 | A synchronous commit that raises without effect moves neither tracker nor stored position |
| `ProtocolEffects.FilterSends` | pyrallel_consumer/control_plane/broker_commit_coordinator_support.py:86-117 | For exactly the candidates whose partition is tracked in their epoch a filtered batch sends the position right past the candidate and the completions past that |
| `ProtocolEffects.BatchCallStores` | pyrallel_consumer/control_plane/broker_commit_coordinator_support.py:113-128 | A returned coordinator call stores exactly what the filtered batch sends |
| `ProtocolEffects.ReportHandsOutInFlight` | pyrallel_consumer/control_plane/commit_coordinator.py:355-370 | After a returned commit exactly the candidates still in flight are handed out as settlements |
| `ProtocolEffects.SettlementAdvances` | pyrallel_consumer/control_plane/broker_commit_coordinator_support.py:138-163 | A settlement advances its tracker through its offset, never back, exactly when the epoch matches and a live candidate of the partition has its lease; otherwise the tracker stays |
| `ProtocolEffects.RemainingIsFurthest` | pyrallel_consumer/control_plane/commit_coordinator.py:233-245 | What is handed to a revoke is one of the partition's pending and in-flight candidates and at least as far as each; nothing exactly when there is neither |
| `ProtocolEffects.RevokeReachesFurthest` | pyrallel_consumer/control_plane/broker_rebalance_orchestration_support.py:182-212 | A revoke commit lies past the contiguous prefix and past every candidate the coordinator holds in the epoch and carries the completions past it; there is none exactly when nothing is known to be done |
| `ProtocolEffects.RevokeAdvancesTrackers` | pyrallel_consumer/control_plane/broker_rebalance_orchestration_support.py:184-191 | Preparing a revoke advances the revoked trackers to the end of their contiguous prefix, and no other |
| `ProtocolEffects.CleanupTakesEffect` | pyrallel_consumer/control_plane/broker_rebalance_orchestration_support.py:252-273 | Cleaning up a revoke forgets the revoked trackers and no others |
| `ProtocolEffects.BuildTakesOver` | pyrallel_consumer/control_plane/broker_rebalance_support.py:150-195 | An assignment built with a lookup takes over the position and text stored for that very partition, without one what came along |
| `ProtocolEffects.InstallTakesEffect` | pyrallel_consumer/control_plane/broker_rebalance_orchestration_support.py:111-121 | Installing makes the built trackers current and their partitions open to candidates, and touches no other |
| `TrackerState.HighWaterMarkIsGreatest` | pyrallel_consumer/control_plane/offset_tracker.py:170-194 | The mark is the greatest committable offset if and only if no completed offset lies at or below the committed one, or the next offset is not completed, or the clamp already stops there |
| `TrackerState.HighWaterMarkIsCommittable` | pyrallel_consumer/control_plane/offset_tracker.py:170-194 | Committing through the mark skips no unfinished and no in-flight offset, in every state |
| `TrackerState.Confluence` | pyrallel_consumer/control_plane/offset_tracker.py:145-237 | However completions, safe commits, fetches and gap reads interleave, a final advance lands on the end of the contiguous prefix of all the work and keeps exactly the work past it |
| `TrackerState.OrderDoesNotMatter` | pyrallel_consumer/control_plane/offset_tracker.py:145-237 | Two safe runs that complete the same offsets agree on committed offset and completed set after a final advance |
| `TrackerState.GapsAreExact` | pyrallel_consumer/control_plane/offset_tracker.py:239-307 | The gap list is the one list of ascending, non-touching ranges that covers exactly the fetched offsets past the committed one that are not completed |
| `TrackerState.StartsOfGaps` | pyrallel_consumer/control_plane/offset_tracker.py:291-303 | The gap starts are exactly the missing offsets that follow the committed or a completed offset |
| `TrackerState.FirstSeenTimeIsKept` | pyrallel_consumer/control_plane/offset_tracker.py:291-303 | Over every run with safe commits a blocking offset keeps its first-seen time until that very offset completes |
| `TrackerState.GapReadStamps` | pyrallel_consumer/control_plane/offset_tracker.py:291-303 | After a gap read exactly the gap starts are stamped, old ones with their time, new ones with the time of the read |
| `TrackerState.FetchedIsFurthest` | pyrallel_consumer/control_plane/offset_tracker.py:309-323 | In every run the fetched offset is the furthest one fetched |
| `Trackers.OffsetTracker.constructor` | pyrallel_consumer/control_plane/offset_tracker.py:28-62 | A new tracker sits just before its starting offset with the given completed offsets and derived state in step |
| `Trackers.OffsetTracker.CalculateFirstGapHead` | pyrallel_consumer/control_plane/offset_tracker.py:71-83 | The scan finds the first missing fetched offset, or none |
| `Trackers.OffsetTracker.RehydrateAssignmentState` | pyrallel_consumer/control_plane/offset_tracker.py:119-143 | Refused exactly when the fetched offset is below the committed one; otherwise both are set and derived state is refreshed |
| `Trackers.OffsetTracker.MarkComplete` | pyrallel_consumer/control_plane/offset_tracker.py:145-161 | Adds the offset when it is past the committed one and keeps caches in step |
| `Trackers.OffsetTracker.GetCommittableHighWaterMark` | pyrallel_consumer/control_plane/offset_tracker.py:170-194 | The ascending scan with early stop computes the high-water mark function |
| `Trackers.OffsetTracker.CommitThrough` | pyrallel_consumer/control_plane/offset_tracker.py:196-218 | Removes exactly the completed offsets up to the new committed one; a lower offset changes nothing |
| `Trackers.OffsetTracker.AdvanceHighWaterMark` | pyrallel_consumer/control_plane/offset_tracker.py:227-237 | Commits through the tracker's own mark |
| `Trackers.OffsetTracker.UpdateLastFetchedOffset` | pyrallel_consumer/control_plane/offset_tracker.py:309-323 | The fetched offset only rises |
| `Trackers.OffsetTracker.GetGaps` | pyrallel_consumer/control_plane/offset_tracker.py:239-307 | Cached or not, returns the gap list, leaves offsets alone, and leaves timestamps keyed by exactly the gap starts with old times kept |
| `MetadataEncoder.MetadataRoundTrip` | pyrallel_consumer/control_plane/metadata_encoder.py:108-223 | For offsets at or past a non-negative base, decoding the encoded text returns the set, or nothing exactly when the text is the overflow mark |
| `MetadataEncoder.EncodeFits` | pyrallel_consumer/control_plane/metadata_encoder.py:108-138 | The text never exceeds a limit of at least 1 |
| `MetadataEncoder.EncodeIsShortest` | pyrallel_consumer/control_plane/metadata_encoder.py:108-138 | The result is the shorter full text that fits, run-length on a tie, overflow when neither fits; the early byte-length exit never changes it |
| `MetadataEncoder.RleRoundTrip` | pyrallel_consumer/control_plane/metadata_encoder.py:28-69 | Decoding the run-length text of non-negative offsets returns them |
| `MetadataEncoder.BitsetRoundTrip` | pyrallel_consumer/control_plane/metadata_encoder.py:71-106 | Decoding the bitset text of offsets at or past the base returns them |
| `MetadataEncoder.RunsAreMaximal` | pyrallel_consumer/control_plane/metadata_encoder.py:28-69 | No two rendered runs touch, so every run of offsets is one part |
| `MetadataEncoder.RunIsRendered` | pyrallel_consumer/control_plane/metadata_encoder.py:51-67 | A run of one is its offset alone, a longer one its two ends with a dash |
| `MetadataEncoder.RunTextExample` | pyrallel_consumer/control_plane/metadata_encoder.py:28-69 | The documented run-length text 1-3,5-6,8 |
| `MetadataEncoder.BitTextExample` | pyrallel_consumer/control_plane/metadata_encoder.py:71-106 | The documented bitset text 1:17 |
| `MetadataEncoder.ByteLengthIsLeast` | pyrallel_consumer/control_plane/metadata_encoder.py:90-95 | The bytes end with the largest offset |
| `MetadataEncoder.RleGarbageDecodesToNothing` | pyrallel_consumer/control_plane/metadata_encoder.py:140-163 | Run-length text with a character that belongs in no number decodes to nothing as a whole |
| `MetadataEncoder.BitsetGarbageDecodesToNothing` | pyrallel_consumer/control_plane/metadata_encoder.py:165-195 | Bitset text without separator, readable base or readable bytes decodes to nothing |
| `MetadataEncoder.UnknownTextDecodesToNothing` | pyrallel_consumer/control_plane/metadata_encoder.py:197-223 | Any other text, the overflow mark included, decodes to nothing |
| `Text.NumbersAsRead` | pyrallel_consumer/control_plane/metadata_encoder.py:140-163 | Signs and single underscores between digits are read as int() reads them; anything else is refused |
| `Text.BlanksDoNotMatter` | pyrallel_consumer/control_plane/metadata_encoder.py:140-163 | Blanks before a number do not matter |
| `Text.FromHexGarbage` | pyrallel_consumer/control_plane/metadata_encoder.py:165-195 | A character that is neither a hexadecimal digit nor a blank spoils the bytes |
| `Text.HexAsRead` | pyrallel_consumer/control_plane/metadata_encoder.py:165-195 | A pair of digits is one byte, high digit first, in either case; blanks may stand between pairs, and a lone digit is refused |
| `MetadataEncoder.RleEncodeOffsets` | pyrallel_consumer/control_plane/metadata_encoder.py:28-69 | The run loop renders the maximal runs of the sorted offsets |
| `MetadataEncoder.BitsetEncodeOffsets` | pyrallel_consumer/control_plane/metadata_encoder.py:71-106 | The byte-array loop produces the byte whose bit k says whether base + 8i + k is in the set, or nothing when the bytes exceed the limit |
| `MetadataEncoder.EncodeMetadata` | pyrallel_consumer/control_plane/metadata_encoder.py:108-138 | The selection over both texts is the encoding function |
| `MetadataEncoder.RleDecodeOffsets` | pyrallel_consumer/control_plane/metadata_encoder.py:140-163 | The part loop decodes every part, and fails as a whole on a malformed one |
| `MetadataEncoder.BitsetDecodeOffsets` | pyrallel_consumer/control_plane/metadata_encoder.py:165-195 | The nested bit loop returns the offsets of the set bits, nothing for malformed text |
| `MetadataEncoder.DecodeMetadata` | pyrallel_consumer/control_plane/metadata_encoder.py:197-223 | Any text decodes; malformed or unknown text decodes to nothing |
| `CoordinatorRuns.SettledOnlyAfterCommit` | pyrallel_consumer/control_plane/commit_coordinator.py:286-393 | In every run a lease reported to the success callback was part of a broker commit that returned, through stale filtering, aborts and leases cancelled mid-commit |
| `CoordinatorRuns.ReportsOnlyCommitted` | pyrallel_consumer/control_plane/commit_coordinator.py:355-370 | When the worker resumes, every batch candidate still active was in the commit that returned |
| `CoordinatorRuns.LadderAlwaysHolds` | pyrallel_consumer/control_plane/commit_coordinator.py:151-194 | In every reachable state, per partition, settled < in flight < pending; in flight equals settled only while the success callback runs |
| `CoordinatorRuns.SettlementRaises` | pyrallel_consumer/control_plane/commit_coordinator.py:371-374 | Each settlement strictly raises the partition's settled offset, to the candidate's own |
| `CoordinatorRuns.SettledNeverFalls` | pyrallel_consumer/control_plane/commit_coordinator.py:286-393 | Over every run a settled offset never falls |
| `CoordinatorRuns.CapacityAlwaysHolds` | pyrallel_consumer/control_plane/commit_coordinator.py:167-178 | In every reachable state at most queue_max_partitions partitions are pending or in flight |
| `CoordinatorRuns.ActiveMeansLive` | pyrallel_consumer/control_plane/commit_coordinator.py:247-258 | No cancelled-lease marker survives to an await point, so a lease is active exactly when it is pending or in flight |
| `CoordinatorRuns.DeadLeasesStayDead` | pyrallel_consumer/control_plane/commit_coordinator.py:206-258 | An issued lease that is dead at one await point is never active at a later one |
| `CoordinatorRuns.LiveLeasesAreUnique` | pyrallel_consumer/control_plane/commit_coordinator.py:184-191 | Live lease ids are unique and at most the counter |
| `CoordinatorRuns.StoppedTakesNothingNew` | pyrallel_consumer/control_plane/commit_coordinator.py:206-220 | From a stop until the next start, no run gives the partition a new live lease |
| `CoordinatorRuns.CancelledAreDead` | pyrallel_consumer/control_plane/commit_coordinator.py:222-231 | After cancelling a partition none of its leases is active |
| `CoordinatorRuns.PendingFallsExactlyOnRetry` | pyrallel_consumer/control_plane/commit_coordinator.py:308-313 | For every action from every state of the invariant, a pending offset falls if and only if a batch the broker refused goes back while that partition's candidate is still in flight |
| `CoordinatorRuns.PendingFallsInARun` | pyrallel_consumer/control_plane/commit_coordinator.py:308-313 | A concrete run: 9 is pending, the commit of 5 fails, and 5 is pending again |
| `CoordinatorRuns.RunKeeps` | pyrallel_consumer/control_plane/commit_coordinator.py:286-393 | From any state of the invariant every interleaving keeps it, revives no lease, reuses no id and lowers no settled offset |
| `CoordinatorCoverage.PendingLeavesOnly` | pyrallel_consumer/control_plane/commit_coordinator.py:145-393 | At every action a pending candidate stays, moves in flight with the next batch, makes way for a further offset of its partition, is withdrawn by a stop or cancel of its partition, or is replaced by that partition's in-flight candidate on a retry; which of these is decided by the action |
| `CoordinatorCoverage.InFlightLeavesOnly` | pyrallel_consumer/control_plane/commit_coordinator.py:222-393 | At every action an in-flight candidate stays, is cancelled with its partition, or leaves when its batch ends: back to pending after a broker exception, settled at its offset after a returned commit |
| `CoordinatorCoverage.AcceptedIsNotForgotten` | pyrallel_consumer/control_plane/commit_coordinator.py:145-393 | Over every run after an accepted enqueue the candidate's offset is settled, in flight or pending, or a further one is, until its partition is stopped or cancelled, its batch dropped, or a retry replaces a newer candidate |
| `CoordinatorCoverage.StopTakesEffect` | pyrallel_consumer/control_plane/commit_coordinator.py:206-215 | A stopped partition is marked and has nothing pending; in-flight candidates, other partitions and settled offsets stay |
| `CoordinatorCoverage.StartTakesEffect` | pyrallel_consumer/control_plane/commit_coordinator.py:217-220 | A started partition is no longer stopped and nothing else moves |
| `CoordinatorCoverage.StoppedPartitionRunsDry` | pyrallel_consumer/control_plane/commit_coordinator.py:206-220 | From a stop until the next start, in every run, nothing of the partition is live but what was in flight at the stop |
| `CoordinatorCoverage.ClosedStaysClosed` | pyrallel_consumer/control_plane/commit_coordinator.py:142-143 | Once accepting has stopped or the worker crashed, no run issues another lease |
| `CoordinatorCoverage.CrashCloses` | pyrallel_consumer/control_plane/commit_coordinator.py:334-336 | A crash of the worker or of a callback closes the outbox for good and no further batch begins |
| `CoordinatorCoverage.RoomMeansAccepted` | pyrallel_consumer/control_plane/commit_coordinator.py:167-178 | An open outbox with room for all candidates accepts them; a refusal is counted once |
| `CoordinatorCoverage.CheckVerifies` | pyrallel_consumer/control_plane/broker_commit_coordinator_support.py:119-128 | A lease passes its check exactly while its candidate is in flight; one that fails refuses the whole batch |
| `CoordinatorCoverage.CommitNeedsEveryCheck` | pyrallel_consumer/control_plane/broker_commit_coordinator_support.py:119-130 | A broker commit happens only after every lease of the filtered batch passed, and covers exactly those |
| `CoordinatorCoverage.RefusedBatchIsDead` | pyrallel_consumer/control_plane/broker_commit_coordinator_support.py:131-136 | After a refused batch none of its tracked leases is active |
| `CoordinatorState.RefusedEnqueueIsAtomic` | pyrallel_consumer/control_plane/commit_coordinator.py:145-178 | A refused enqueue leaves everything but the failure count as it was |
| `CoordinatorState.AcceptedEnqueueCovers` | pyrallel_consumer/control_plane/commit_coordinator.py:151-200 | After an accepted enqueue the offset of every candidate of a partition not stopped is settled, in flight or pending, or a further one is: no commit intent is lost |
| `CoordinatorState.EnqueueConservesCounts` | pyrallel_consumer/control_plane/commit_coordinator.py:179-198 | Every lease an accepted enqueue issues takes a new place in the outbox or is counted as coalesced |
| `CoordinatorState.RetryState` | pyrallel_consumer/control_plane/commit_coordinator.py:308-314 | After a broker exception the whole live batch is pending again and nothing is in flight |
| `CommitCoordinators.CommitCoordinator.EnqueueCandidates` | pyrallel_consumer/control_plane/commit_coordinator.py:133-200 | Queues candidates in turn under fresh leases with coalescing, or restores the snapshot when full |
| `CommitCoordinators.CommitCoordinator.TakeCandidate` | pyrallel_consumer/control_plane/commit_coordinator.py:152-193 | One candidate is ignored, refused for lack of room, or replaces the pending one, under the source's conditions |
| `CommitCoordinators.CommitCoordinator.StopAcceptingPartitions` | pyrallel_consumer/control_plane/commit_coordinator.py:206-215 | Stops the partitions, drops their pending candidates, leaves in-flight ones, forgets dead markers |
| `CommitCoordinators.CommitCoordinator.StartAcceptingPartitions` | pyrallel_consumer/control_plane/commit_coordinator.py:217-220 | Lifts the stop and changes nothing else |
| `CommitCoordinators.CommitCoordinator.CancelLeases` | pyrallel_consumer/control_plane/commit_coordinator.py:222-231 | Drops pending and in-flight candidates of the partitions |
| `CommitCoordinators.CommitCoordinator.RemainingCandidates` | pyrallel_consumer/control_plane/commit_coordinator.py:233-245 | The further of the in-flight and pending candidate per partition, in flight on a tie |
| `CommitCoordinators.CommitCoordinator.IsActiveLease` | pyrallel_consumer/control_plane/commit_coordinator.py:247-258 | Active exactly when not marked cancelled and named by a pending or in-flight candidate |
| `CommitCoordinators.CommitCoordinator.BeginBatch` | pyrallel_consumer/control_plane/commit_coordinator.py:288-291 | The outbox becomes the batch in flight |
| `CommitCoordinators.CommitCoordinator.ReturnFailedBatch` | pyrallel_consumer/control_plane/commit_coordinator.py:308-314 | Still active candidates return to pending, in flight is cleared, markers are pruned |
| `CommitCoordinators.CommitCoordinator.AbandonBatch` | pyrallel_consumer/control_plane/commit_coordinator.py:326-331 | An aborted or crashed batch is marked, cleared and pruned |
| `CommitCoordinators.CommitCoordinator.RecordSuccess` | pyrallel_consumer/control_plane/commit_coordinator.py:356-374 | The settlements are the still active candidates, and their offsets are recorded as settled |
| `CommitCoordinators.CommitCoordinator.ClearInFlight` | pyrallel_consumer/control_plane/commit_coordinator.py:386-393 | In flight is cleared and markers are pruned |
| `BrokerMembers.BrokerMember.FilterStale` | pyrallel_consumer/control_plane/broker_commit_coordinator_support.py:86-104 | Stale candidates are exactly those whose tracker is gone or of another epoch |
| `BrokerMembers.BrokerMember.SettleCommittedOffsets` | pyrallel_consumer/control_plane/broker_commit_coordinator_support.py:138-163 | Advances exactly the trackers with a matching epoch, an active lease and a further offset, and reports exactly those |
| `BrokerMembers.BrokerMember.BuildCommitCandidates` | pyrallel_consumer/control_plane/broker_dispatch_support.py:134-149 | Plans exactly the partitions whose mark is past their committed offset: the furthest offset below the lowest in flight through which everything is done |
| `BrokerMembers.BrokerMember.BuildOffsetsToCommit` | pyrallel_consumer/control_plane/broker_support.py:279-325 | One position and metadata text per planned, still tracked partition |
| `BrokerMembers.BrokerMember.CommitOffsets` | pyrallel_consumer/control_plane/broker_poller.py:1059-1137 | Succeeds exactly when the consumer is open and there is nothing to send or one of two attempts returns before it closes; then and only then the trackers, as the awaited broker calls left them, advance through what was sent |
| `BrokerMembers.QuietCommit` | pyrallel_consumer/control_plane/broker_poller.py:1059-1137 | With nothing else going on meanwhile, the planned trackers advance exactly when an attempt returned |
| `BrokerMembers.BrokerMember.PrepareRevokes` | pyrallel_consumer/control_plane/broker_rebalance_orchestration_support.py:182-212 | Every revoked tracker is advanced and gets one commit at its own or the coordinator's further offset, with metadata for what lies past it |
| `BrokerMembers.BrokerMember.CleanupRevoke` | pyrallel_consumer/control_plane/broker_rebalance_orchestration_support.py:252-273 | Trackers, dirty flags, counts, timestamps and pending dead-letter events of the revoked partitions are gone, all others stay |
| `BrokerMembers.BrokerMember.InstallAssignments` | pyrallel_consumer/control_plane/broker_rebalance_orchestration_support.py:111-121 | Moves trackers and coordinator as the install step of the group does for a member with exactly these trackers on their way; each built tracker is installed and its partition accepts candidates again |
| `BrokerMembers.BrokerMember.BuildAssignments` | pyrallel_consumer/control_plane/broker_rebalance_support.py:150-195 | One tracker per assigned partition, the last listing winning: it takes over position and text stored for that partition, or else what came along |
| `Handoff.HandoffPreservesMeaning` | pyrallel_consumer/control_plane/broker_rebalance_support.py:164-193 | A tracker taken over from a stored commit that carries the completions of its predecessor starts right behind the stored position and holds exactly the lowest of them past it up to the cap, none only when neither full text of those fits the limit |
| `Handoff.RevokeHandsOver` | pyrallel_consumer/control_plane/broker_rebalance_orchestration_support.py:190-209 | The same for the commit a revoke prepares: position and completions are those of the revoked tracker |
| `Handoff.CommitCarries` | pyrallel_consumer/control_plane/broker_support.py:228-277 | The metadata of a commit decodes to the lowest completions from the position on up to the cap, none only when neither full text fits; it is empty with snapshots off |
| `Handoff.RebuildTakesOver` | pyrallel_consumer/control_plane/broker_rebalance_support.py:156-193 | A new tracker starts behind the stored position or else the start, holds the decoded stored text or else the text that came along past that, has fetched through the furthest of both, and is of epoch 1 |
| `Handoff.RevokeCommitsFurthest` | pyrallel_consumer/control_plane/broker_rebalance_orchestration_support.py:190-209 | A revoke commit reaches both the end of the contiguous prefix and the coordinator's candidate of the same epoch, is one of the two, and is absent exactly when neither has anything |
| `Handoff.MetadataOffsetsAreLowest` | pyrallel_consumer/control_plane/broker_support.py:228-249 | The snapshot holds the lowest completed offsets from the base, as many as the cap allows |
| `Handoff.MetadataIsCompleted` | pyrallel_consumer/control_plane/broker_support.py:251-277 | Whatever a commit's metadata decodes to had been completed, past the committed position |
| `Handoff.SkippedOffsetsWereCompleted` | pyrallel_consumer/control_plane/offset_tracker.py:163-168 | After a handoff dispatch skips an offset only if the previous owner had completed it |
| `Handoff.BuildAssignment` | pyrallel_consumer/control_plane/broker_rebalance_support.py:156-195 | Constructing, rehydrating and bumping the epoch yields the rebuilt tracker with derived state in step |
| `Completion.NothingIsLost` | pyrallel_consumer/control_plane/broker_completion_support.py:153-260 | After a batch the offset of every tracked current-epoch event, fresh or retried, is committed, completed or in the retry ledger |
| `CompletionRuns.NothingIsEverLost` | pyrallel_consumer/control_plane/broker_completion_support.py:153-260 | Over every run of batches, fetches, commits and rebalances from an empty ledger: once a tracked current-epoch event was handed to a batch, its offset is committed, completed or in the ledger until its partition is rebalanced |
| `CompletionRuns.RunSound` | pyrallel_consumer/control_plane/broker_completion_support.py:229-258 | In every such run the ledger holds at most one event per key, each of a tracked partition and its epoch |
| `CompletionRuns.ProcessBatchIsCompletions` | pyrallel_consumer/control_plane/broker_completion_support.py:140-273 | A processed batch moves the trackers exactly as a sequence of completion steps of the group protocol does |
| `Completion.CompletedOnlyWhenSettled` | pyrallel_consumer/control_plane/broker_completion_support.py:191-256 | An offset becomes complete only through a current-epoch event whose processing is over |
| `Completion.FreshOutcomeDecides` | pyrallel_consumer/control_plane/broker_completion_support.py:161-258 | The first fresh event of a key in the tracker's epoch decides whatever duplicates follow: its offset becomes complete if and only if it was open and the event is a success, dead letters are off, attempts are below the maximum, or the publish returned true; otherwise the event waits in the ledger |
| `Completion.RetriedOutcomeDecides` | pyrallel_consumer/control_plane/broker_completion_support.py:153-258 | The same for a ledger event whose publish is tried again; afterwards it is in the ledger if and only if it is not over |
| `Completion.OverLeavesNothing` | pyrallel_consumer/control_plane/broker_completion_support.py:255-258 | A fresh event that is over leaves nothing of its key in the ledger when no duplicate follows |
| `Completion.StaleLeavesLedger` | pyrallel_consumer/control_plane/broker_completion_support.py:174-190 | A ledger event of a partition that is gone or of another epoch leaves the ledger |
| `Completion.ReportIsExact` | pyrallel_consumer/control_plane/broker_completion_support.py:249-273 | Reported offsets are exactly the growth of each completed set, each once, and the sizes match |
| `Completion.CompletionProcessor.ProcessCompletedEvents` | pyrallel_consumer/control_plane/broker_completion_support.py:140-273 | The event loop computes the batch function on trackers, ledger and report |
| `Completion.CompletionProcessor.ProcessEvent` | pyrallel_consumer/control_plane/broker_completion_support.py:161-260 | One event: duplicate, untracked, stale, retained or completed |
| `Settlement.LedgersAreExact` | pyrallel_consumer/control_plane/broker_commit_settlement_support.py:49-137 | For a partition not restored from metadata, after every run of processed batches, fetches, commits, failed commits and rebalances of other partitions the count is the number of completed offsets, the timestamps name exactly those, and the partition is dirty while there are any |
| `Settlement.LedgersFollow` | pyrallel_consumer/control_plane/broker_commit_settlement_support.py:49-137 | The same for restored partitions, up to the restored offsets |
| `Settlement.AssignmentStartsInStep` | pyrallel_consumer/control_plane/broker_rebalance_orchestration_support.py:252-273 | After a revoke and a new assignment the ledgers are empty and in step, whatever the metadata restored |
| `Settlement.ProcessedBatchFollows` | pyrallel_consumer/control_plane/broker_poller.py:987-1016 | A processed batch, booked as reported, keeps the ledgers of every partition in step with its tracker |
| `Settlement.CommitFollows` | pyrallel_consumer/control_plane/broker_commit_settlement_support.py:79-97 | A successful commit followed by clearing keeps them in step |
| `Settlement.StampsKeepTheirTime` | pyrallel_consumer/control_plane/broker_commit_settlement_support.py:62-77 | A timestamp keeps its time while its offset is unsettled; a new one is the time of the batch that completed the offset |
| `Settlement.IntentIsKept` | pyrallel_consumer/control_plane/broker_commit_settlement_support.py:49-137 | A batch leaves partitions with dead-letter retries dirty and a failed commit those it retains; a partition stops being dirty only when everything completed in it is committed or it is revoked |
| `Settlement.SettlementLedgers.RecordProcessedCompletions` | pyrallel_consumer/control_plane/broker_commit_settlement_support.py:49-77 | Books dirty flags, counts and timestamps of every reported partition, and nothing for an empty report |
| `Settlement.SettlementLedgers.ClearCommittedDirtyPartitions` | pyrallel_consumer/control_plane/broker_commit_settlement_support.py:79-97 | Clears or retains the ledgers of each committed partition in turn, and resets the cadence counter when nothing is dirty |
| `Settlement.SettlementLedgers.ClearOne` | pyrallel_consumer/control_plane/broker_commit_settlement_support.py:99-137 | Keeps timestamps of offsets still completed past the commit, drops the partition when none remain, leaves others alone |
| `TopologyState.IndexesAlwaysAgree` | pyrallel_consumer/control_plane/work_queue_topology.py:193-497 | After every lawful run of all operations, outside the keys deferred meanwhile: head offsets are defined exactly on non-empty queues and are their true heads; the offset index is the inverse and the active set is the set of runnable keys without repeats; with no key deferred this holds everywhere |
| `TopologyState.PicksAlwaysReliable` | pyrallel_consumer/control_plane/work_queue_topology.py:344-414 | In every lawful run that activates keys only by refreshing them, every runnable key has a right index entry whatever is deferred, which is what the two picks rely on |
| `TopologyState.BlockingPickIsPlainScan` | pyrallel_consumer/control_plane/work_queue_topology.py:344-379 | The indexed blocking pick is the active eligible queue whose head is the smallest gap start, first partition on a tie, none exactly when there is none |
| `TopologyState.NextPickIsFirstEligible` | pyrallel_consumer/control_plane/work_queue_topology.py:381-414 | The next pick is the first eligible key in FIFO order, passed keys go to the back in order, and it is none with everything unchanged exactly when none is eligible |
| `TopologyState.OrderIsConserved` | pyrallel_consumer/control_plane/work_queue_topology.py:324-342 | Between rebalances, what was taken from a queue followed by what is queued is what was queued followed by what was accepted, in order |
| `TopologyState.AssignExactlyWhenDrained` | pyrallel_consumer/control_plane/work_queue_topology.py:193-200 | Assigning keeps the indexes exact if and only if the partition had nothing queued |
| `TopologyState.ReassignLeavesStaleHead` | pyrallel_consumer/control_plane/work_queue_topology.py:193-200 | A concrete re-assignment with work queued leaves a head for a queue that is gone |
| `TopologyState.DeactivateExactlyWhenEmpty` | pyrallel_consumer/control_plane/work_queue_topology.py:275-287 | Deactivating a key keeps the indexes exact if and only if its queue is empty |
| `TopologyState.ActivateExactlyWhenQueued` | pyrallel_consumer/control_plane/work_queue_topology.py:289-298 | Activating a key keeps the indexes exact if and only if its queue holds something |
| `TopologyState.DequeueItemIsOne` | pyrallel_consumer/control_plane/work_queue_topology.py:436-461 | The single dequeue is the counted dequeue of one |
| `TopologyState.RefreshAgrees` | pyrallel_consumer/control_plane/work_queue_topology.py:300-322 | Refreshing a key ends its deferral and restores agreement whatever its entries were |
| `TopologyState.RevokeKeeps` | pyrallel_consumer/control_plane/work_queue_topology.py:202-218 | Revoking keeps the indexes exact and ends the deferral of the partition's queues |
| `TopologyState.EnqueueTakesEffect` | pyrallel_consumer/control_plane/work_queue_topology.py:324-342 | Items reach the back of their queue exactly when the partition is assigned; a queue that held work keeps its place in line, one that was empty gets in line |
| `TopologyState.DequeueTakesCount` | pyrallel_consumer/control_plane/work_queue_topology.py:463-497 | A dequeue takes exactly the given number of items or all there are; an emptied queue is gone, other queues stay |
| `TopologyState.AssignTakesEffect` | pyrallel_consumer/control_plane/work_queue_topology.py:193-200 | An assigned partition accepts items and has nothing queued; other partitions are not touched |
| `TopologyState.RevokeTakesEffect` | pyrallel_consumer/control_plane/work_queue_topology.py:202-218 | A revoked partition refuses items and has nothing queued; other partitions are not touched |
| `TopologyState.RefreshGoesToTheBack` | pyrallel_consumer/control_plane/work_queue_topology.py:300-322 | A refreshed queue with work goes to the back of the line and the others keep their order |
| `TopologyState.BlockingPickLeavesLine` | pyrallel_consumer/control_plane/work_queue_topology.py:374-379 | A blocking pick takes its key out of line and leaves the order of the others |
| `WorkQueueTopologies.WorkQueueTopology.AssignPartition` | pyrallel_consumer/control_plane/work_queue_topology.py:193-200 | The partition starts with no queues; index entries are not touched |
| `WorkQueueTopologies.WorkQueueTopology.RevokePartition` | pyrallel_consumer/control_plane/work_queue_topology.py:202-218 | Drops the partition's queues and entries and reports exactly the number of items dropped |
| `WorkQueueTopologies.WorkQueueTopology.DeactivateQueueKey` | pyrallel_consumer/control_plane/work_queue_topology.py:275-287 | Removes the key from runnable, active and both head indexes |
| `WorkQueueTopologies.WorkQueueTopology.ActivateQueueKey` | pyrallel_consumer/control_plane/work_queue_topology.py:289-298 | Puts an inactive key at the back of the line and touches no head entry |
| `WorkQueueTopologies.WorkQueueTopology.RefreshQueueHead` | pyrallel_consumer/control_plane/work_queue_topology.py:300-322 | Re-derives the key's entries from its queue |
| `WorkQueueTopologies.WorkQueueTopology.EnqueueItems` | pyrallel_consumer/control_plane/work_queue_topology.py:324-342 | Appends the items, refreshing the head only when the queue was empty; an unassigned partition is refused |
| `WorkQueueTopologies.WorkQueueTopology.CleanupEmptyQueue` | pyrallel_consumer/control_plane/work_queue_topology.py:258-273 | Removes a queue and its entries only when it is empty |
| `WorkQueueTopologies.WorkQueueTopology.DequeueSubmittedItem` | pyrallel_consumer/control_plane/work_queue_topology.py:436-461 | Takes the front item and cleans up or refreshes; deactivates the key of an empty queue |
| `WorkQueueTopologies.WorkQueueTopology.DequeueSubmittedItems` | pyrallel_consumer/control_plane/work_queue_topology.py:463-497 | Takes up to count items from the front, in order, and cleans up or refreshes |
| `WorkQueueTopologies.WorkQueueTopology.PickBlockingQueueKey` | pyrallel_consumer/control_plane/work_queue_topology.py:344-379 | The gap loop computes the indexed pick and takes the key out of line |
| `WorkQueueTopologies.WorkQueueTopology.PickNextRunnableQueueKey` | pyrallel_consumer/control_plane/work_queue_topology.py:381-414 | The rotating loop computes the next pick |
| `WorkQueueTopologies.WorkQueueTopology.PopNextQueueKey` | pyrallel_consumer/control_plane/work_queue_topology.py:416-434 | When some queue blocks, the result is the one with the lowest blocking head, first on a tie; otherwise the first eligible in line; none exactly when no active key is eligible; the picked key alone leaves the active set |
| `RebalanceBridge.SuccessMeansRanOnce` | pyrallel_consumer/control_plane/broker_rebalance_bridge.py:74-115 | Over every two-thread interleaving, a bridge that reports success ran its mutation exactly once, to the end |
| `RebalanceBridge.FailureMeansNeverRuns` | pyrallel_consumer/control_plane/broker_rebalance_bridge.py:87-115 | A bridge that reports failure, when the mutation did not itself raise, has not run it and never will |
| `RebalanceBridge.NeverRunsTwice` | pyrallel_consumer/control_plane/broker_rebalance_bridge.py:106-115 | No interleaving runs the mutation twice |
| `RebalanceBridge.TimeoutIsAnswered` | pyrallel_consumer/control_plane/broker_rebalance_bridge.py:84-104 | A timeout before the mutation started cancels it for good and reports failure; after that the callback waits and reports how the mutation ended |
| `RebalanceBridge.ResultIsReported` | pyrallel_consumer/control_plane/broker_rebalance_bridge.py:74-115 | Without a timeout the callback reports what the mutation did; a cancelled call never mutates |
| `RebalanceBridge.BridgeCallState.MarkStarted` | pyrallel_consumer/control_plane/broker_rebalance_bridge.py:31-37 | Starts unless cancelled; never both started and cancelled |
| `RebalanceBridge.BridgeCallState.CancelIfNotStarted` | pyrallel_consumer/control_plane/broker_rebalance_bridge.py:39-45 | Cancels unless started; never both started and cancelled |
| `DlqCache.AlwaysWithinBudget` | pyrallel_consumer/control_plane/broker_support.py:60-175 | Over every sequence of cache, pop and drop operations the cached bytes stay within a positive budget |
| `DlqCache.EvictionsAreFewest` | pyrallel_consumer/control_plane/broker_support.py:134-145 | Evicting that many oldest entries makes room, and evicting fewer would not |
| `DlqCache.CachedIsFound` | pyrallel_consumer/control_plane/broker_support.py:84-148 | After caching, the message is found exactly when payloads are cached and its bytes fit the budget; every other entry is found unchanged or was evicted, and none is evicted when there is room |
| `DlqCache.PopForgetsOne` | pyrallel_consumer/control_plane/broker_support.py:60-82 | A popped entry is forgotten and no other |
| `DlqCache.DropForgetsPartition` | pyrallel_consumer/control_plane/broker_support.py:150-175 | Dropping a partition forgets its entries and no others |
| `DlqCache.AlwaysOneEntryPerKey` | pyrallel_consumer/control_plane/broker_support.py:60-175 | Over every sequence of operations there is one entry per key |
| `DlqCache.MessageCache.PopCachedMessage` | pyrallel_consumer/control_plane/broker_support.py:60-82 | Returns and removes the entry; the byte counter stays exact, so the clamp at zero never takes effect |
| `DlqCache.MessageCache.CacheMessageForDlq` | pyrallel_consumer/control_plane/broker_support.py:84-148 | Replaces the entry of the key and evicts the shortest oldest-first prefix that makes room; skips what can never fit; the counter stays exact |
| `DlqCache.MessageCache.DropPartitionMessages` | pyrallel_consumer/control_plane/broker_support.py:150-175 | Leaves exactly the other partitions' entries, in order, with an exact counter |
| `Dispatch.DispatchMessages` | pyrallel_consumer/control_plane/broker_dispatch_support.py:56-132 | In every ordering mode the loops move the queues as the dispatch function does, and raise when it does |
| `Dispatch.GroupMessages` | pyrallel_consumer/control_plane/broker_dispatch_support.py:64-129 | Each group is the dispatched messages of its submit key, in arrival order, and the groups come in order of first arrival; errors, unset fields, untracked partitions and restored completions are left out |
| `Dispatch.DispatchKeepsArrivalOrder` | pyrallel_consumer/control_plane/broker_dispatch_support.py:56-132 | In every ordering mode a dispatch raises exactly when a dispatched message is of a partition without queues; otherwise each queue grows by exactly the dispatched messages of its key in poll order, and when it raises by the first of them |
| `Dispatch.WantedAreQueued` | pyrallel_consumer/control_plane/broker_dispatch_support.py:66-132 | A dispatch that does not raise queues exactly the messages without error, with all fields, of a tracked partition, that the tracker has not already completed past its commit; each under its own partition and offset |
| `Dispatch.QueueSharing` | pyrallel_consumer/control_plane/broker_dispatch_support.py:107-132 | Two queued messages of a poll share a queue if and only if they are of one partition and, unless partition order is kept, have one record key |
| `Dispatch.EarlierComesFirst` | pyrallel_consumer/control_plane/broker_dispatch_support.py:121-132 | In a shared queue the earlier message comes first |
| `Dispatch.PollOrderIsConserved` | pyrallel_consumer/control_plane/broker_dispatch_support.py:56-132 | Over every run of polls, picks, dequeues and rebalances of other partitions, what was taken from a queue followed by what it holds is what it held at first followed by the dispatched messages of its key in poll order |
| `Dispatch.TakenInPollOrder` | pyrallel_consumer/control_plane/broker_dispatch_support.py:56-132 | From an empty queue the messages of a key are taken in poll order, none skipped |

## Left out

- Kafka client, producer and admin calls: a commit is a step that returns or raises, a publish is a boolean.
- `work_manager.py` beyond its queue topology, and the execution engines: they supply events and the lowest in-flight offset.
- Wall-clock time, sleeps, backoff and task scheduling: await points are places where any other step may happen; one call reads the clock once. Cancellation of the coordinator's worker task is not modelled.
- Metrics, runtime snapshots, diagnostics, log suppression counters, and the coordinator's submitted, success, retry and crash counters: projections that no modelled decision reads.
- Adaptive controllers, pause and resume thresholds, the poison-message breaker, shutdown wiring: short machines beside the protocol.
- Liveness across offsets missing from Kafka: the tracker counts consecutive offsets, and only safety is proved.
- `BrokerRebalanceSupport.handle_revoke`, `BrokerCommitSupport`, `BrokerDrainSupport`: variants of paths modelled elsewhere.
- Text that is not ASCII: non-ASCII digits and blanks that `int()` accepts are read as malformed; the cap on very long decimal strings is not modelled.
- Payload types other than bytes in the dead-letter cache: a text payload would weigh its encoded length.
- Order of a dictionary's values inside one commit batch: a batch is a map, since one candidate per partition makes the order unobservable to the broker.
- BrokerMembers.BrokerMember.BuildAssignments: trackers are values there; the object itself is built by `Handoff.BuildAssignment`.
- Nested queue dictionaries: flattened to one map keyed by partition and key; the asyncio queue's wake-up of waiting getters is not modelled.
