# Broadcaster consumer: a verified model

A simulator keeps its liquidity state by consuming a broadcaster. It bootstraps every backend
(native, VM, RFQ) from an HTTP snapshot, then follows a trimmable Redis stream one contiguous
message number at a time. Now and then the publisher replaces the whole state of some backends
through a private recovery transaction on that stream: Start, Chunks, Catch-ups, Commit.

This project models that consumer and the components around it, and proves what they promise.

* **Replay and recovery** (`World`, `Gaps`, `CatchingUp`, `RedisLog`, `Replay`, `Subscription`, `Batches`,
  `PreparedSubscriptions`, `RecoveryInvariant`, `RecoveryCommit`, `RecoveryRuns`, `RecoveryHeads`,
  `SupersededStarts`, `TornCommit`, `Bootstrap`): an explicit Redis log that writers and retention change
  between any two reader commands, the replay client's decisions, and the subscription as mutable state.
  The main result is `World.EveryRunIsFaithful`: every run applies exactly the next entries of one
  generation, and each backend equals a simple fold over the messages. `Gaps` proves that a lost entry
  always stops the consumer, `CatchingUp` what it means when the consumer calls itself caught up.
* **What is served** (`Pools`, `Views`, `PoolRuns`, `Fragments`, `Replacements`, `Heads`): the meaning of
  every message for one pool id, written from the wire and not from the store's code, and the theorem that
  every run serves exactly that (`World.EveryPoolIsFaithful`); which recovery messages are accepted, what an
  assembly therefore holds, and which block each backend reports.
* **Subscription tracker and partitioner** (`Trackers`, `TrackerRuns`, `Contracts`, `Partitions`,
  `UpdateSplit`, `FeedSplit`, `Completeness`): the AwaitingSnapshot, Snapshot and Live state machine, the
  two splits of an upstream update into per-backend partitions over hash maps of arbitrary iteration order,
  and the whole-block completeness test.
* **Stream health** (`StreamHealths`, `BurstWindows`, `AdvancedStretches`, `RawLease`, `Throttle`):
  tumbling-window bursts, the Advanced grace period, the progress lease, and the lock-free snapshot throttle as
  interleaved atomic steps under relaxed memory.
* **Router calldata and amounts** (`Calldata`, `Amounts`): length-prefixed and ABI decoding, and basis-point
  arithmetic. The ABI layout is that of the Solidity Contract ABI Specification, "Formal Specification of
  the Encoding".

`EntryIds`, `Wire`, `Wrappers`, `Strings`, `Sorting` and `StateStores` hold the shared data and orders.
Objects the source updates in place are classes whose methods are proved against functions of their
abstract value; the theorems are lemmas about those functions. `dafny verify dfyconfig.toml` checks everything.

Five facts the proofs bring out:

* The commit is all-or-nothing at every sequence number but the last. At `u64::MAX` the stores are swapped
  before the trackers fail to move past the commit (`RecoveryCommit.CommitTearsExactlyAtLastSeq` gives the
  exact condition, `TornCommit.CommitCanTear` a concrete run).
* When Starts supersede one another, the trackers keep waiting at the number of the first Start, not of the
  newest one; only the commit moves them (`RecoveryInvariant.StartExpectation` is the exact condition,
  `SupersededStarts.TrackersExpectFirstStart` its form over runs).
* A Start fences every backend it names until that backend's own next delivery or commit. A later Start that
  no longer names it, and that Start's commit, do not lift the fence (`PoolRuns.FencedUntilDelivered`).
* Being caught up can miss an entry. A consumer at 0 takes a missing stream for an unwritten one, so an entry
  appended and deleted with its stream goes unnoticed (`CatchingUp.DeletedEntryGoesUnnoticed`); without a
  deletion the marking is right (`CatchingUp.CaughtUpOverRuns`).
* The burst detector needs 2N-2 events inside one window length to be sure of a trip at threshold N; 2N-3 can
  slip through (`BurstWindows.FewerNeedNotTrip`).

## Model

| member | source | states |
|---|---|---|
| `World.EveryRunIsFaithful` | `crates/runtime/src/broadcaster/redis_subscription.rs:595-712` | Over any interleaving of appends, trims, deletion, writer replacement, transport failures, reads, inspections and recovery timeouts, the messages applied are boundary+1, boundary+2, ... of one stream and generation, each a record really appended under that id; unless a message failed to apply, also after a gap or a timeout, the state is that of applying them as one batch and every backend holds its reference content |
| `World.HealthyRunsNeverGap` | `crates/broadcaster-replay-client/src/client.rs:118-146` | While one writer owns the stream and the next entry is retained, or the stream is still unwritten at checkpoint 0, no run ever stops with a replay error |
| `World.StepKeepsWorldInv` | `crates/runtime/src/broadcaster/redis_subscription.rs:595-712` | Every single step of the log or the consumer keeps the run invariant |
| `World.HealthyStepNoReplayExit` | `crates/broadcaster-replay-client/src/checkpoint.rs:12-72` | Facing a healthy stream, an unwritten one at checkpoint 0 included, neither a read nor an inspection stops the consumer with a replay error |
| `World.EveryPoolIsFaithful` | `crates/runtime/src/broadcaster/redis_subscription.rs:595-712` | In every run without a failed message each pool of each backend, its block, its version and whether it is served are what the delivered messages say on the wire |
| `World.TimeoutNeedsRecovery` | `crates/runtime/src/broadcaster/redis_subscription.rs:595-712` | Only a run with a recovery still open stops at the recovery timeout |
| `Gaps.HealthyConsumerAdvances` | `crates/broadcaster-replay-client/src/client.rs:118-146` | While the writer's next entry is retained a running consumer applies it: at its next read, after one inspection when its last read was empty, and after any transport failure |
| `Gaps.LostEntryStops` | `crates/broadcaster-replay-client/src/client.rs:118-146` | Once the expected entry is trimmed, overtaken or gone with its stream, the consumer stops with a replay error within one read and one inspection and applies nothing more; the error is a gap whenever the entries read decode |
| `Gaps.WriterStopsExactly` | `crates/broadcaster-replay-client/src/client.rs:118-146` | On its own writer's stream a read and an inspection end in a gap iff the expected entry was trimmed or the stream ends before the checkpoint, and otherwise in no replay error |
| `Gaps.OtherGenerationStops` | `crates/broadcaster-replay-client/src/checkpoint.rs:119-178` | A stream rewritten by a writer of any other generation always stops the consumer at a gap within a read and an inspection, nothing applied |
| `CatchingUp.CaughtUpOverRuns` | `crates/runtime/src/broadcaster/redis_subscription.rs:595-712` | Over every run, whenever the consumer marks itself caught up, nothing ever generated lies past its checkpoint iff nothing in a deleted stream did; so always when no stream is deleted |
| `CatchingUp.InspectionIsExact` | `crates/broadcaster-replay-client/src/checkpoint.rs:12-72` | In a run that deletes no stream, an inspection marks the consumer caught up iff nothing generated lies past its checkpoint and the stream has not moved backwards |
| `CatchingUp.MarkedAtTail` | `crates/runtime/src/broadcaster/redis_subscription.rs:595-712` | Marked by an inspection or by a short batch, the stream ends at the checkpoint just reached |
| `CatchingUp.DeletedEntryGoesUnnoticed` | `crates/broadcaster-replay-client/src/checkpoint.rs:12-20` | The run that shows deletion matters: a read, an append, a deletion and an inspection mark a consumer at 0 caught up with the appended entry past its checkpoint |
| `Bootstrap.ReadPayloads` | `crates/runtime/src/broadcaster/redis_subscription.rs:536-544` | Feeding each payload to every processor in turn succeeds iff each processor alone could read the whole snapshot, with the same resulting processors |
| `Bootstrap.BootstrapProcessors` | `crates/runtime/src/broadcaster/redis_subscription.rs:456-574` | Succeeds iff every processor on its own completes the snapshot and aligns past the boundary, and returns exactly those processors |
| `Bootstrap.BootstrapEstablishesInvariant` | `crates/runtime/src/broadcaster/redis_subscription.rs:407-451` | A successful bootstrap leaves every tracker Live on the session's stream and snapshot, expecting the entry after its boundary: the invariant replay starts from |
| `PoolRuns.EveryPoolAsTold` | `crates/runtime/src/broadcaster/redis_subscription.rs:827-867` | Over every run each pool is a fold per pool id over the wire: an update for the backend adds, replaces the state of, or removes it; a commit naming the backend puts it at what the fragments since the last Start and then the catch-ups say; block, version and the request fence follow the same messages |
| `PoolRuns.ObservedPartition` | `crates/runtime/src/models/state.rs:1388-1440` | One applied delta, read off its own partition: removed ids are absent, the last known new pair of each id is in with the last state given, a delta replaces a held pool's state, nothing else moves, and the version is the entry's |
| `PoolRuns.RemovedStaysAway` | `crates/runtime/src/models/state.rs:1615-1637` | A removed pool is not live until a later update adds it or a commit replaces the backend |
| `PoolRuns.LastDeltaDecides` | `crates/runtime/src/models/state.rs:1549-1637` | With no commit since, the last message that says anything about a pool decides it |
| `PoolRuns.DeltaAcceptedExactly` | `crates/runtime/src/broadcaster/redis_subscription/processor.rs:209-254` | An ordinary entry is taken iff the tracker accepts it, its raw messages can be read and, when it carries state for the backend, its version is newer than the published one |
| `PoolRuns.VersionsRise` | `crates/runtime/src/models/state.rs:1371-1386` | Over every run each delivery and each commit raises its backend's version |
| `PoolRuns.FencedUntilDelivered` | `crates/runtime/src/broadcaster/redis_subscription.rs:913-945` | A backend named by a Start is refused requests until its own next delivery or commit, whatever Starts and commits of other backends follow |
| `Pools.UpdatedPool` | `crates/runtime/src/models/state.rs:1549-1637` | For each id: a removal wins, a known component with a state enters, any other state replaces a held pool's, silence changes nothing |
| `Pools.LiveUpdateMentions` | `crates/runtime/src/broadcaster/redis_subscription/processor.rs:605-626` | What a wire partition says about an id: its last new pair, the last delta's state before the new pair's, and any removal |
| `Views.AppliedView` | `crates/runtime/src/broadcaster/redis_subscription/processor.rs:336-420` | An applied update moves every pool id as its own partition says, takes that partition's block, and is published at the given version; an update without state for the backend changes nothing |
| `Views.RebuiltView` | `crates/runtime/src/broadcaster/redis_subscription.rs:1149-1166` | A rebuilt backend holds for each id what the replacement's chunks and then the catch-ups in index order say, starting from nothing, at the block of the last that carries state |
| `Views.LastCatchUpDecides` | `crates/runtime/src/broadcaster/redis_subscription.rs:1162-1166` | The last catch-up that says anything about a pool decides it; a removal there leaves it absent |
| `Views.LastCatchUpBlock` | `crates/runtime/src/broadcaster/redis_subscription.rs:1162-1166` | The rebuilt block is that of the last catch-up carrying state for the backend |
| `Replacements.RebuiltFromComplete` | `crates/runtime/src/broadcaster/redis_subscription.rs:1149-1161` | A backend is rebuilt only from a replacement that opens with a complete snapshot of the chain declaring it: start, every chunk in order, end, exactly the declared backends |
| `Replacements.BootedFromComplete` | `crates/runtime/src/broadcaster/redis_subscription.rs:545-574` | A backend with a fresh tracker is booted only from such a complete snapshot |
| `Bootstrap.BootedView` | `crates/runtime/src/broadcaster/redis_subscription.rs:536-574` | Every pool of a booted backend is what the session's payloads say on top of what it held |
| `Bootstrap.BootedAtBoundary` | `crates/runtime/src/broadcaster/redis_subscription/processor.rs:166-184` | A booted backend stands at the boundary's state version, served iff it has pools, unless updates follow the snapshot's end |
| `Bootstrap.BootedHead` | `crates/runtime/src/broadcaster/redis_subscription.rs:456-574` | A booted backend reports no head until replay moves it, unless the session carries updates |
| `Fragments.StartAcceptedExactly` | `crates/runtime/src/broadcaster/redis_subscription.rs:878-958` | A Start is accepted iff its manifest is sound, its watermark is its own number plus the fragments plus one, it differs from the open one, and it is newer than every named store; one out of place changes nothing and any other refusal drops the open recovery |
| `Fragments.ChunkAcceptedExactly` | `crates/runtime/src/broadcaster/redis_subscription.rs:959-1016` | A chunk is accepted iff it is well formed and the next one declared, in identity, backends, size, its entry's size, and the digest of its fragment, its own and the manifest's; a refusal changes nothing |
| `Fragments.CatchUpAcceptedExactly` | `crates/runtime/src/broadcaster/redis_subscription.rs:1017-1048` | A catch-up is accepted iff it is valid, of the manifest's identity, the next one declared, and all chunks are held; a refusal changes nothing |
| `Fragments.CommitCheckedExactly` | `crates/runtime/src/broadcaster/redis_subscription.rs:1083-1140` | A commit passes its checks iff it repeats the manifest, every fragment is held, and the joined fragments have the declared length and digest and decode |
| `Fragments.CommitEndsRecovery` | `crates/runtime/src/broadcaster/redis_subscription.rs:1083-1100` | A malformed commit changes nothing; any other commit, applied or not, ends the open recovery |
| `Fragments.FragmentInPlace` | `crates/runtime/src/broadcaster/redis_subscription.rs:1117-1121` | Every fragment stands whole at its own place in the joined text: in index order, with nothing between |
| `Fragments.HeldFragmentsFit` | `crates/runtime/src/broadcaster/redis_subscription.rs:959-1048` | Over every run each held chunk is the manifest's in identity, backends, sizes and digests and came since the last Start with an entry of that size, and each held catch-up is valid and the manifest's |
| `Heads.DeltaMovesHead` | `crates/runtime/src/broadcaster/redis_subscription/processor.rs:388-418` | A delta moves the head only by a partition for the backend: RFQ to its block, VM never down, native only to a block carried whole |
| `Heads.CommitMovesHeads` | `crates/runtime/src/broadcaster/redis_subscription.rs:1184-1211` | A commit moves the head of each named backend likewise, native to the largest block that the replacement or a catch-up carries whole, and no other head |
| `Heads.NativeHeadIsLargestWholeBlock` | `crates/runtime/src/broadcaster/redis_subscription.rs:827-867` | Over every run a native head is the largest block that an update in its scope or a commit naming it carried whole, or its first value; an incomplete block never moves it |
| `RecoveryRuns.RunEqualsReference` | `crates/runtime/src/broadcaster/redis_subscription.rs:827-867` | Any contiguous message sequence that applies leaves each backend with the last committed replacement naming it (or its bootstrap content), its catch-ups in index order, then every later ordinary delta once; superseded and uncommitted recoveries leave no trace |
| `RecoveryRuns.BatchReaches` | `crates/runtime/src/broadcaster/redis_subscription.rs:827-867` | A batch that applies leads from one reachable state to another and to the checkpoint of its last message |
| `Batches.FailureKeepsCheckpoint` | `crates/runtime/src/broadcaster/redis_subscription.rs:832-866` | When a message fails, the checkpoint stays at the last message applied before it |
| `RecoveryRuns.FragmentTells` | `crates/runtime/src/broadcaster/redis_subscription.rs:873-1063` | Start, Chunk and Catch-up change no backend's reference content and keep exactly the fragments since the last Start |
| `RecoveryRuns.CommitTells` | `crates/runtime/src/broadcaster/redis_subscription.rs:1083-1241` | A commit moves each named backend, and no other, to the replacement assembled since the last Start |
| `Batches.BatchBoundariesDoNotMatter` | `crates/runtime/src/broadcaster/redis_subscription.rs:827-867` | Applying a batch is applying any split of it piece by piece |
| `RecoveryCommit.StepKeepsInv` | `crates/runtime/src/broadcaster/redis_subscription.rs:827-867` | One applied message keeps the subscription invariant, and every backend then reports the checkpoint just reached |
| `RecoveryCommit.CommitIsAllOrNothing` | `crates/runtime/src/broadcaster/redis_subscription.rs:1083-1228` | Below the last sequence number a commit either leaves every live processor untouched or swaps every named backend to its rebuilt candidate at a strictly higher version |
| `RecoveryCommit.CommitTearsExactlyAtLastSeq` | `crates/runtime/src/broadcaster/redis_subscription.rs:1175-1228` | A commit fails after swapping stores iff it is otherwise ready and sits at sequence number u64::MAX |
| `TornCommit.CommitCanTear` | `crates/runtime/src/broadcaster/redis_subscription.rs:1175-1228` | A concrete run: a bootstrapped consumer three entries before u64::MAX reads Start, Chunk and Commit in one batch and stops on a failed message, the first two applied and the store already swapped |
| `RecoveryCommit.CommitMovesBoundaries` | `crates/runtime/src/broadcaster/redis_subscription.rs:1222-1228` | A commit moves the subscription's and every processor's boundary to its own number and target version |
| `RecoveryCommit.ReportedPastBoundary` | `crates/runtime/src/broadcaster/redis_subscription.rs:1280-1298` | The checkpoint a backend reports is the later of the replay checkpoint and its own boundary |
| `RecoveryCommit.NothingExposedBeforeCommit` | `crates/runtime/src/broadcaster/redis_subscription.rs:873-1063` | Start, Chunk and Catch-up, accepted or refused, move no live content, head, tracker or boundary, neither the subscription's nor a processor's: of each processor only the request fence may change |
| `RecoveryCommit.EveryTrackerAcceptsNext` | `crates/runtime/src/broadcaster/redis_subscription.rs:845-857` | Outside a recovery the next ordinary entry is past every processor's boundary and in step with every tracker, so the already-covered skip never fires |
| `RecoveryInvariant.WatermarkMeansComplete` | `crates/runtime/src/broadcaster/redis_subscription.rs:1098-1115` | A commit on the declared watermark finds every declared chunk and catch-up held, so the completeness check is redundant on reachable runs, across superseding Starts |
| `RecoveryInvariant.StartKeepsInv` | `crates/runtime/src/broadcaster/redis_subscription.rs:878-958` | An accepted Start, superseding or not, restarts the fragment count at its own number and fences the named stores |
| `RecoveryInvariant.StartExpectation` | `crates/runtime/src/broadcaster/redis_subscription.rs:878-958` | After an accepted Start every tracker expects that Start's own number iff no recovery was open before it |
| `SupersededStarts.TrackersExpectFirstStart` | `crates/runtime/src/broadcaster/redis_subscription.rs:827-867` | Over every run every tracker expects the number after the last ordinary entry or commit, which while a recovery is open is the number of the first Start since then |
| `SupersededStarts.SecondStartKeepsFirstNumber` | `crates/runtime/src/broadcaster/redis_subscription.rs:878-958` | A concrete run: a second Start supersedes the first and the trackers still expect the first one's number |
| `RecoveryInvariant.ChunkKeepsInv` | `crates/runtime/src/broadcaster/redis_subscription.rs:959-1016` | An accepted chunk keeps checkpoint = start + chunks held + catch-ups held, with chunk indices exactly 0..k |
| `RecoveryInvariant.CatchUpKeepsInv` | `crates/runtime/src/broadcaster/redis_subscription.rs:1017-1048` | An accepted catch-up keeps the same count and follows every declared chunk |
| `RecoveryInvariant.CommitKeepsInv` | `crates/runtime/src/broadcaster/redis_subscription.rs:1222-1241` | After a commit every tracker, named or not, expects the number after the commit |
| `RecoveryInvariant.OrdinaryKeepsInv` | `crates/runtime/src/broadcaster/redis_subscription.rs:845-857` | An ordinary delta moves every tracker by one and keeps every boundary at or below the checkpoint |
| `RecoveryInvariant.MarkingKeepsInv` | `crates/runtime/src/broadcaster/redis_subscription.rs:1280-1298` | After a message every backend reports the checkpoint's own entry id; the before-boundary label never appears |
| `RecoveryInvariant.DeltaAdvancesTracker` | `crates/runtime/src/broadcaster/redis_subscription/processor.rs:209-254` | A delta observed or skipped moves the tracker by exactly one and touches only the store and head besides |
| `RecoveryInvariant.ReadyCommitSucceeds` | `crates/runtime/src/broadcaster/redis_subscription.rs:1083-1241` | Once all checks and candidates succeed below u64::MAX, the swap and the alignment of every processor succeed too |
| `RecoveryInvariant.ObservePointwise` | `crates/runtime/src/broadcaster/redis_subscription.rs:845-863` | The sweep over processors applies the delta to each independently and succeeds iff each does |
| `RecoveryInvariant.FencePointwise` | `crates/runtime/src/broadcaster/redis_subscription.rs:913-932` | The Start guard passes iff the target is newer than every named store, and fences exactly the named ones |
| `RecoveryInvariant.PublishPointwise` | `crates/runtime/src/broadcaster/redis_subscription.rs:1175-1211` | The sweep succeeds iff the version is newer than every store with a candidate, and then swaps exactly those |
| `RecoveryInvariant.CandidatesPointwise` | `crates/runtime/src/broadcaster/redis_subscription.rs:1143-1173` | Candidate building succeeds only with a rebuilt store for each named backend and none for the others |
| `RecoveryHeads.CommitReportsLargestWholeBlock` | `crates/runtime/src/broadcaster/redis_subscription.rs:1243-1274` | A commit reports the largest native block that the replacement or a catch-up carries whole under one hash, and none when none is |
| `PreparedSubscriptions.PreparedSubscription.constructor` | `crates/runtime/src/broadcaster/redis_subscription.rs:447-453` | Starts from the prepared subscription unchanged |
| `PreparedSubscriptions.PreparedSubscription.ApplyReplayBatch` | `crates/runtime/src/broadcaster/redis_subscription.rs:827-867` | The loop over a batch leaves the state, checkpoint and outcome of the batch specification |
| `PreparedSubscriptions.PreparedSubscription.ApplyMessage` | `crates/runtime/src/broadcaster/redis_subscription.rs:840-857` | One message is dispatched to the recovery transaction or the ordinary sweep as specified, the whole state included |
| `PreparedSubscriptions.PreparedSubscription.ObserveAll` | `crates/runtime/src/broadcaster/redis_subscription.rs:845-857` | The loop over processors refines the ordinary sweep and writes only the processors |
| `PreparedSubscriptions.PreparedSubscription.Begin` | `crates/runtime/src/broadcaster/redis_subscription.rs:878-958` | Start refines its specification, including what is left behind when the guard or the repeat check fails |
| `PreparedSubscriptions.PreparedSubscription.AcceptChunk` | `crates/runtime/src/broadcaster/redis_subscription.rs:959-1016` | Chunk refines its specification and writes only the recovery |
| `PreparedSubscriptions.PreparedSubscription.AcceptCatchUp` | `crates/runtime/src/broadcaster/redis_subscription.rs:1017-1048` | Catch-up refines its specification and writes only the recovery |
| `PreparedSubscriptions.PreparedSubscription.Publish` | `crates/runtime/src/broadcaster/redis_subscription.rs:1083-1241` | Commit refines its specification: take the assembly, check, rebuild all candidates, then swap |
| `PreparedSubscriptions.PreparedSubscription.SwapAll` | `crates/runtime/src/broadcaster/redis_subscription.rs:1175-1228` | The two loops that swap and align refine the swap specification, whichever iteration fails |
| `PreparedSubscriptions.RebuildAll` | `crates/runtime/src/broadcaster/redis_subscription.rs:1143-1173` | The candidate loop returns one private rebuild per named backend, or the first failure |
| `PreparedSubscriptions.RebuildOne` | `crates/runtime/src/broadcaster/redis_subscription.rs:1149-1166` | One candidate is the replacement replayed into an empty private copy, then the catch-ups in order |
| `EntryIds.PrintedIdReadsBack` | `crates/broadcaster-replay-client/src/checkpoint.rs:186-208` | Every printed entry id parses back to exactly the pair printed |
| `EntryIds.ReadableHalves` | `crates/broadcaster-replay-client/src/checkpoint.rs:186-208` | Half an id is read iff it is digits after at most one plus sign with a 64-bit value; the sign and leading zeros change nothing |
| `EntryIds.PrintedIdsEqual` | `crates/simulator-core/src/broadcaster/redis_streams.rs:80-82` | Printed ids are equal iff generation and number are |
| `Replay.BuildReplayBatch` | `crates/broadcaster-replay-client/src/client.rs:188-220` | The batch loop computes the batch specification: each entry checked against the checkpoint the previous one left |
| `Replay.NextAcceptedExactly` | `crates/broadcaster-replay-client/src/checkpoint.rs:119-178` | An entry passes iff it is the very next number of the checkpoint's stream, chain and generation and any snapshot id it names is the checkpoint's |
| `Replay.DecodedEntryAgrees` | `crates/simulator-core/src/broadcaster/redis_streams.rs:156-200` | A decoded entry repeats its envelope's stream and number, its scope is exactly the backends the payload speaks for, and its version, chain and snapshot are those the payload names |
| `Replay.BatchesCompose` | `crates/broadcaster-replay-client/src/client.rs:188-220` | Building a + b succeeds iff building a and then b from a's last checkpoint does, with the items concatenated and the same first error |
| `Replay.BuiltBatchIsContiguous` | `crates/broadcaster-replay-client/src/checkpoint.rs:119-178` | A built batch continues the checkpoint with no skip, repeat or reorder, on one stream, chain, snapshot and generation |
| `RedisLog.ChangesKeepOrder` | `crates/broadcaster-replay-client/src/reader.rs:91-122` | Any appends, trims and deletions leave entry ids strictly increasing |
| `RedisLog.RecordsAfterIsSuffix` | `crates/broadcaster-replay-client/src/reader.rs:40-55` | What a read after an id returns is exactly the suffix of entries above it |
| `RedisLog.PollReadsTheRealIds` | `crates/broadcaster-replay-client/src/checkpoint.rs:186-204` | The empty poll's textual comparisons decide on the real numeric ids |
| `RedisLog.EmptyPollIsSound` | `crates/broadcaster-replay-client/src/checkpoint.rs:12-72` | On any ordered stream CaughtUp iff the stream as it stands ends at the checkpoint, a missing stream counting as ending at 0 whatever was generated before; Pending implies the next read is non-empty |
| `RedisLog.EmptyPollIsExact` | `crates/broadcaster-replay-client/src/checkpoint.rs:12-72` | On a one-writer stream the poll is CaughtUp, Pending or a gap exactly as the expected entry is unwritten, retained or trimmed |
| `RedisLog.ReadFindsExpected` | `crates/broadcaster-replay-client/src/reader.rs:40-55` | A read begins with the expected entry iff the stream still retains it |
| `RedisLog.UnexpectedFirstGaps` | `crates/broadcaster-replay-client/src/checkpoint.rs:119-178` | A read that decodes and does not begin with the expected entry is refused as a gap |
| `RedisLog.LostEntryPolls` | `crates/broadcaster-replay-client/src/checkpoint.rs:12-72` | When the expected entry is neither retained nor still to come, an empty read is a gap at the poll, and a poll that is not a gap promises a non-empty read |
| `RedisLog.ReadIsExact` | `crates/broadcaster-replay-client/src/client.rs:188-220` | A read of a one-writer stream always decodes, is empty iff nothing lies past the checkpoint, and otherwise builds iff the expected entry was not trimmed and is a gap if it was |
| `RedisLog.NoFalseGapOnRead` | `crates/broadcaster-replay-client/src/client.rs:188-220` | On a one-writer stream retaining the next entry, a read is empty exactly at the tail and otherwise builds from the expected entry |
| `TrackerRuns.RunIsSound` | `crates/simulator-core/src/broadcaster.rs:1290-1424` | In every reachable tracker state the chunks accepted are 0..next-1 with next at most the total, and there is no next number iff awaiting |
| `TrackerRuns.LiveMeansCompleteBootstrap` | `crates/simulator-core/src/broadcaster.rs:1317-1424` | A Live tracker has accepted exactly Start(n), chunks 0..n-1 and End, consecutively on one stream, with the union of chunk backends equal to the declared set |
| `TrackerRuns.StartAcceptedExactly` | `crates/simulator-core/src/broadcaster.rs:1290-1315` | A tracker awaiting a snapshot accepts exactly a start of distinct backends with a number after it |
| `TrackerRuns.SnapshotAcceptedExactly` | `crates/simulator-core/src/broadcaster.rs:1317-1424` | During a snapshot exactly the next chunk, or the end once every chunk and declared backend was seen, is accepted |
| `TrackerRuns.LiveAcceptedExactly` | `crates/simulator-core/src/broadcaster.rs:1426-1481` | A Live tracker accepts exactly the next sound ordinary message of its stream for declared backends, and moves by one |
| `TrackerRuns.SkippedExactly` | `crates/simulator-core/src/broadcaster.rs:1203-1245` | Skipping asks only for the next ordinary message of the stream, and moves by one |
| `TrackerRuns.AlignedExactly` | `crates/simulator-core/src/broadcaster.rs:1180-1201` | Aligning asks for a Live tracker of the boundary's stream and snapshot and a number after the boundary |
| `TrackerRuns.ObservedCouldBeSkipped` | `crates/simulator-core/src/broadcaster.rs:1203-1245` | Whatever a Live tracker observes it could skip, with the same post-state |
| `TrackerRuns.EveryFilterFollows` | `crates/simulator-core/src/broadcaster.rs:1203-1245` | A log that can be observed throughout can be followed under any filter, to the same state |
| `TrackerRuns.FiltersStayInStep` | `crates/simulator-core/src/broadcaster.rs:1426-1481` | Two subscribers that filter one log differently stay at the same next number |
| `Trackers.SubscriptionTracker.constructor` | `crates/simulator-core/src/broadcaster.rs:1163-1165` | A new tracker awaits a snapshot |
| `Trackers.SubscriptionTracker.ResetForReconnect` | `crates/simulator-core/src/broadcaster.rs:1175-1178` | Reset returns to the fresh tracker |
| `Trackers.SubscriptionTracker.AlignLiveReplayBoundary` | `crates/simulator-core/src/broadcaster.rs:1180-1201` | Refines alignment; every error leaves the tracker unchanged |
| `Trackers.SubscriptionTracker.SkipLiveDelta` | `crates/simulator-core/src/broadcaster.rs:1203-1245` | Refines skipping; every error leaves the tracker unchanged |
| `Trackers.SubscriptionTracker.ObserveEnvelope` | `crates/simulator-core/src/broadcaster.rs:1247-1288` | Refines observing in each state; every error leaves the tracker unchanged |
| `Trackers.SubscriptionTracker.ObserveAwaitingSnapshot` | `crates/simulator-core/src/broadcaster.rs:1290-1315` | Accepts only a Start with distinct backends; errors change nothing |
| `Trackers.SubscriptionTracker.ObserveSnapshotPhase` | `crates/simulator-core/src/broadcaster.rs:1317-1424` | Chunks and End of the snapshot phase, checks in the source's order; errors change nothing |
| `Trackers.SubscriptionTracker.ObserveLivePhase` | `crates/simulator-core/src/broadcaster.rs:1426-1481` | Live updates, heartbeats and progress; errors change nothing |
| `Contracts.CheckUnique` | `crates/simulator-core/src/broadcaster.rs:2375-2386` | The growing seen set accepts iff the backends are pairwise distinct |
| `Contracts.UniqueMeansDistinct` | `crates/simulator-core/src/broadcaster.rs:2375-2386` | Acceptance from any seen set iff distinct and unseen |
| `Contracts.DeclaredMeansSubset` | `crates/simulator-core/src/broadcaster.rs:2388-2399` | Acceptance iff every entry is declared |
| `Contracts.ValidateUpdateExact` | `crates/simulator-core/src/broadcaster.rs:2261-2270` | The update validator accepts exactly the non-empty updates with distinct, non-empty partitions whose every entry sits under its own backend |
| `Contracts.ValidateSnapshotChunkExact` | `crates/simulator-core/src/broadcaster.rs:2254-2260` | The snapshot chunk validator accepts exactly distinct partitions whose messages, states and statuses belong to their backend |
| `Wire.KindsByBackend` | `crates/simulator-core/src/broadcaster.rs:2061-2071` | Curve, Balancer V2 and Maverick V2 are simulated in the VM, Hashflow, Bebop and Liquorice are RFQ, every other kind is native |
| `Wire.StatusDeterminesState` | `crates/simulator-core/src/broadcaster.rs:712-720` | A status determines the state it was made from; it carries a header iff the state is Ready, Delayed, Stale or Advanced, and a reason iff it is Ended |
| `Contracts.PartitionPlaced` | `crates/simulator-core/src/broadcaster.rs:2452-2502` | A partition's contents pass iff each message, entry, delta, removal and status belongs to its backend |
| `Completeness.CompletePartitionBlock` | `crates/simulator-core/src/broadcaster.rs:801-853` | The loop with its first-hash memory computes the completeness specification |
| `Completeness.CompleteBlockExact` | `crates/simulator-core/src/broadcaster.rs:801-853` | A partition is complete at its block iff it has content and all messages, their sync states and all statuses are Ready there under one hash with no partial index |
| `Partitions.CollectedIsValid` | `crates/simulator-core/src/broadcaster.rs:542-549` | Per-backend partitions with the empty ones dropped are already in order and pass the constructor's own validation, or are refused as empty |
| `Strings.LtMeans` | `crates/simulator-core/src/broadcaster.rs:749-751` | The order of ids is the dictionary's: at the first difference the smaller character or the shorter string comes first |
| `Partitions.IncreasingMeans` | `crates/simulator-core/src/broadcaster.rs:542-549` | In backend order native comes first and RFQ last |
| `Partitions.AllKept` | `crates/simulator-core/src/broadcaster.rs:604-631` | Collecting partitions keeps every owned id exactly once |
| `UpdateSplit.FromTychoUpdate` | `crates/simulator-core/src/broadcaster.rs:550-632` | Succeeds iff every new pair has a state and a known kind, every other state a known backend, every removal and status key is classified, and something is there; the result is the same for every iteration order |
| `UpdateSplit.AddNewPairs` | `crates/simulator-core/src/broadcaster.rs:556-575` | The first loop succeeds iff all new pairs are known and files each under its own backend |
| `UpdateSplit.AddUpdatedStates` | `crates/simulator-core/src/broadcaster.rs:577-596` | The second loop succeeds iff all remaining states have a known backend and files each there |
| `UpdateSplit.AddRemovedPairs` | `crates/simulator-core/src/broadcaster.rs:598-610` | The third loop succeeds iff all removals are classified and files each under its own backend |
| `UpdateSplit.AddStatuses` | `crates/simulator-core/src/broadcaster.rs:612-618` | The fourth loop succeeds iff all status keys are classified and gives each backend exactly its statuses |
| `UpdateSplit.SplitIsValid` | `crates/simulator-core/src/broadcaster.rs:2261-2270` | The split passes its own validator with strictly increasing backends; an empty update is refused |
| `UpdateSplit.SplitPlaces` | `crates/simulator-core/src/broadcaster.rs:550-632` | Each partition holds exactly its own backend's entries, new pairs and removals by kind and deltas by the backend known for the id, in ascending order of ids |
| `UpdateSplit.SplitConserves` | `crates/simulator-core/src/broadcaster.rs:556-618` | State ids fall exactly into new pairs and updated states, removals and statuses are kept once each, and every entry keeps its upstream data |
| `FeedSplit.FromTychoFeedMessage` | `crates/simulator-core/src/broadcaster.rs:634-702` | Succeeds iff every protocol key is classifiable and the feed is non-empty; the result depends on iteration order only through the order of messages |
| `FeedSplit.CollectStatuses` | `crates/simulator-core/src/broadcaster.rs:642-656` | The status loop gives each backend exactly its statuses and the largest sync block number |
| `FeedSplit.CollectMessages` | `crates/simulator-core/src/broadcaster.rs:658-673` | The message loop gives each backend exactly its messages, with Started for a missing sync state |
| `FeedSplit.SplitIsValid` | `crates/simulator-core/src/broadcaster.rs:2261-2270` | The split passes its own validator with strictly increasing backends; an empty feed is refused |
| `FeedSplit.PartitionReportsFeed` | `crates/simulator-core/src/broadcaster.rs:642-720` | Each partition's block is the largest number among its messages' headers, else among the headers its states carry, Ready, Delayed, Stale or Advanced, else 0; its statuses and messages are the feed's, Started standing for a missing state |
| `FeedSplit.SplitConserves` | `crates/simulator-core/src/broadcaster.rs:675-700` | No message or status is lost, repeated or altered, and each block number is the largest header number, else the largest sync number, else 0 |
| `FeedSplit.OrderIrrelevant` | `crates/simulator-core/src/broadcaster.rs:634-702` | Two iteration orders give partitions that agree up to the order of messages |
| `FeedSplit.FeedCompleteExact` | `crates/simulator-core/src/broadcaster.rs:704-710` | The update reports native block b iff all native messages, their sync states and all native statuses are Ready at b with one hash and no partial index |
| `StreamHealths.StreamHealth.constructor` | `crates/runtime/src/models/stream_health.rs:43-47` | A fresh health record |
| `StreamHealths.StreamHealth.MarkStarted` | `crates/runtime/src/models/stream_health.rs:65-71` | Start clears the update time and the head |
| `StreamHealths.StreamHealth.MarkStartedPreservingHead` | `crates/runtime/src/models/stream_health.rs:73-77` | A raw restart clears the update time and keeps the head |
| `StreamHealths.StreamHealth.RecordUpdate` | `crates/runtime/src/models/stream_health.rs:79-83` | Records the block unconditionally |
| `StreamHealths.StreamHealth.RecordProgress` | `crates/runtime/src/models/stream_health.rs:85-91` | Only a strictly higher block moves the head and the update time |
| `StreamHealths.StreamHealth.RecordMissingBlock` | `crates/runtime/src/models/stream_health.rs:93-116` | Counts one missing block in its tumbling window, the whole new record stated |
| `StreamHealths.StreamHealth.RecordError` | `crates/runtime/src/models/stream_health.rs:118-141` | Counts one error in its tumbling window, the whole new record stated |
| `StreamHealths.StreamHealth.RecordAdvanced` | `crates/runtime/src/models/stream_health.rs:143-162` | Counts a sighting in a window that stays open, with its elapsed time |
| `StreamHealths.StreamHealth.ClearAdvanced` | `crates/runtime/src/models/stream_health.rs:164-168` | Closes the sighting window |
| `StreamHealths.StreamHealth.ResetBursts` | `crates/runtime/src/models/stream_health.rs:176-184` | Clears all three counters and windows, keeping totals |
| `StreamHealths.StreamHealth.IncrementRestart` | `crates/runtime/src/models/stream_health.rs:170-174` | Saturating restart count |
| `StreamHealths.HandleStreamError` | `crates/runtime/src/stream.rs:537-584` | A missing-block error and any other error move separate counters and exit exactly at their thresholds |
| `AdvancedStretches.WindowIsStretch` | `crates/runtime/src/models/stream_health.rs:143-184` | Over any run of health operations the Advanced window began at the first sighting since the last clearing or reset, and its count is the sightings since then |
| `AdvancedStretches.GraceExitExact` | `crates/runtime/src/stream.rs:427-447` | Over any run of raw updates the last one exits as Advanced for too long iff it carries an Advanced state and the unbroken stretch of such updates began at least the grace period before |
| `BurstWindows.TotalsCountAll` | `crates/runtime/src/models/stream_health.rs:93-184` | Totals and restarts count every event of their kind since the beginning, whatever was reset |
| `BurstWindows.TripMeansCluster` | `crates/runtime/src/models/stream_health.rs:93-141` | A trip at threshold N means N same-kind events within one window length |
| `BurstWindows.ClusterForcesTrip` | `crates/runtime/src/models/stream_health.rs:93-141` | Any 2N-2 consecutive same-kind events inside one window length force a trip |
| `BurstWindows.FewerNeedNotTrip` | `crates/runtime/src/models/stream_health.rs:93-141` | For every N and every window of at least one tick, a sequence with 2N-3 such events inside one window length that never trips |
| `BurstWindows.OneResetInSpan` | `crates/runtime/src/models/stream_health.rs:98-103` | At most one reset falls inside a span no longer than the window |
| `BurstWindows.ResetMeansEarlierEvent` | `crates/runtime/src/models/stream_health.rs:98-103` | A reset inside such a span closes a window opened by an event before the span |
| `BurstWindows.CountersSeeOnlyTheirKind` | `crates/runtime/src/models/stream_health.rs:93-184` | Over any run of health operations each counter depends only on its own events since the last reset |
| `BurstWindows.ExitMeansCluster` | `crates/runtime/src/stream.rs:537-584` | Over any run, the stream exits on a burst only after threshold-many such events within one window length |
| `BurstWindows.ClusterForcesExit` | `crates/runtime/src/stream.rs:537-584` | Over any run, 2N-2 such events inside one window length make the stream exit |
| `RawLease.HandleRawUpdate` | `crates/runtime/src/stream.rs:413-512` | A raw update's effect on the health record and its exit, for every outcome of the service; a published strict advance is recorded at the time it was recorded, nothing else moves the head |
| `RawLease.PollHonoursLease` | `crates/runtime/src/stream.rs:264-309` | A poll goes stale no earlier than the lease and less than a millisecond later, and receives nothing later than that |
| `RawLease.PollExact` | `crates/runtime/src/stream.rs:264-309` | A poll at or past the lease is stale at once; any other receives exactly what arrives within the rest of the lease |
| `RawLease.TimelyItemReceived` | `crates/runtime/src/stream.rs:264-309` | An item arriving within the lease is received |
| `RawLease.LeaseCountsFromLastAdvance` | `crates/runtime/src/stream.rs:464-470` | In every run the lease is counted from the last strict head advance of the current stream, else from its start |
| `RawLease.FloodExtendsNothing` | `crates/runtime/src/stream.rs:464-470` | Any number of repeated, older or unpublished updates and errors leaves every later poll as it was |
| `RawLease.HeadIsMaximum` | `crates/runtime/src/models/stream_health.rs:73-91` | Across restarts the head is the largest native progress ever recorded |
| `Throttle.RunKeepsInv` | `crates/runtime/src/memory.rs:132-146` | Every interleaving of loads, exchanges and forced stores keeps the chain of writes |
| `Throttle.WinnersClearTheInterval` | `crates/runtime/src/memory.rs:132-146` | Each winning timestamp is at least the interval above the value it really replaced, forced stores or not |
| `Throttle.WinnersApart` | `crates/runtime/src/memory.rs:132-146` | With no forced store in between, winners are pairwise at least one interval apart |
| `Throttle.WonMeansWrote` | `crates/runtime/src/memory.rs:132-146` | Over every interleaving a thread has won iff its own exchange wrote its time and it has not begun anew |
| `Throttle.AnyHeldValueLoads` | `crates/runtime/src/memory.rs:132-138` | A load may return any value the atomic ever held |
| `Throttle.RefusalsAreEarned` | `crates/runtime/src/memory.rs:132-138` | A refused thread came less than the interval after a value the atomic held |
| `Calldata.AbiWordToUsize` | `crates/apps/src/sim_analysis/mod.rs:1988-1997` | The per-byte overflow check succeeds iff the big-endian value fits, and returns it |
| `Calldata.DecodePleSegments` | `crates/apps/src/sim_analysis/mod.rs:1931-1950` | The cursor loop computes the segment specification |
| `Calldata.DecodeUndoesEncode` | `crates/apps/src/sim_analysis/mod.rs:1931-1950` | Decoding undoes encoding for any number of segments under 65536 bytes |
| `Calldata.EncodeUndoesDecode` | `crates/apps/src/sim_analysis/mod.rs:1931-1950` | Every accepted input is the encoding of what it decodes to |
| `Calldata.DynamicBytesReadBack` | `crates/apps/src/sim_analysis/mod.rs:1876-1900` | The final dynamic argument of an ABI-encoded call is read back, whatever precedes or pads it |
| `Calldata.PayloadsReadBack` | `crates/apps/src/sim_analysis/mod.rs:1902-1929` | The executor's 20 bytes, and in a split call the two token indices and the three-byte share before it, are stripped exactly, giving the protocol data of each swap in order |
| `Calldata.StripsExactly` | `crates/apps/src/sim_analysis/mod.rs:1902-1929` | Headers are stripped iff every segment is long enough, leaving exactly the rest of each |
| `Calldata.OnlyKnownCalls` | `crates/apps/src/sim_analysis/mod.rs:1847-1875` | Only a call to one of the three swap functions is inspected, as what its selector says |
| `Calldata.FillReadsBack` | `crates/apps/src/sim_analysis/mod.rs:1952-1970` | A packed Bebop fill yields its amount and offset iff the token pair matches |
| `Calldata.InspectFindsMatching` | `crates/apps/src/sim_analysis/mod.rs:1829-1929` | Inspecting an encoded call of any kind with any number of swaps returns exactly the matching payloads in order |
| `Calldata.InspectReadsFills` | `crates/apps/src/sim_analysis/mod.rs:1829-1970` | A call of any number of Bebop fills is inspected to exactly the amounts and offsets for the pair, in order |
| `Amounts.AllocateSegmentAmounts` | `crates/apps/src/sim_analysis/mod.rs:1316-1352` | All three outcomes exactly: the parts, None at the first zero part, an error at the first amount that is not a number |
| `Amounts.AllocationsSumToRoute` | `crates/apps/src/sim_analysis/mod.rs:1332-1345` | With the single zero share last, whenever every segment has an allocation they sum to the route amount |
| `Amounts.PartsSumExactly` | `crates/apps/src/sim_analysis/presets.rs:777-782` | With the single zero share last, the parts sum to the route amount iff the fixed shares do not exceed it |
| `Amounts.LastExceedsLittle` | `crates/apps/src/sim_analysis/mod.rs:1332-1345` | The last segment gets at least its exact share and less than one unit per other segment more |
| `Amounts.RouteMinimumBounded` | `crates/apps/src/sim_analysis/mod.rs:1354-1362` | The route minimum is at least the sum of per-segment minima and exceeds it by less than the segment count |
| `Amounts.QuarterPercent` | `crates/apps/src/sim_analysis/mod.rs:1354-1362` | The route minimum keeps 9975 of every 10000 |
| `Amounts.OverfullSlippage` | `crates/apps/src/sim_analysis/mod.rs:2234-2249` | A slippage of the whole or more leaves nothing |
| `Amounts.ComplementLosesAtMostOne` | `crates/apps/src/sim_analysis/mod.rs:2234-2249` | Slippage and split at the same rate add up to the amount, or to one unit less when the rate does not divide it; text that is not a number counts as zero in both |

## Left out

- HTTP, Redis and tokio plumbing, locks, tasks and cancellation: each awaited section is one step of the model.
- Views and PoolRuns: the merge of several partitions for one backend is an uninterpreted function of the decoder; the theorems need none, because an accepted update names each backend at most once.
- A component whose kind changes for the same id would leave its old entry in the old kind's shard in the source; the model keeps one pool for each id.
- Payload JSON, digests, raw protocol decoding and merging, and the Redis entry size are uninterpreted functions (fields of `Replay.Codec`); the shared decoder's own memory between calls is not modelled.
- Protocol name tables are uninterpreted (`Wire.Protocols`); only the mapping from kind to backend is written out.
- Entry validation omits the schema version, kind, block number and observed timestamp fields; the theorems hold of more entries than the source admits.
- Blank: recognises space, tab, line feed and carriage return only, not every Unicode blank.
- CheckStatuses: one error stands for an unknown or a misplaced status key, because which key an ordered map visits first only changes the error's text.
- Error texts, metrics, logging, status payloads, token stores, VM rebuild guards and request generations.
- The recovery timeout is a step that may happen at any moment while a recovery is open; wall-clock comparison, jitter and backoff are not modelled.
- An index into a list that the source would panic on is an error in the model (`Subscription.At`); the invariant shows those states are not reachable.
- The publisher, the writer lease and the service behind `apply_feed_message_with_progress`: their outcomes are parameters.
- `block_number_or_timestamp` of a block header is taken to be its number; the upstream client library is not part of this model.
- Relaxed atomics: `Throttle` lets a load return any older value and an exchange fail at will, which covers more executions than the hardware allows.
- Hex text, decimal text of amounts, function-selector hashing and the inspection report's wording: calldata is bytes, amounts are numbers or not numbers, selectors are parameters.
- `decode_ple_segments` adds a 16-bit length to a cursor inside a slice; the overflow check of that addition cannot fire and is not written out.
- Quote and encode services, pool simulation, presets, manifests and reports.
