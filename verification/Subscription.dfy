/**
 The simulator's subscription: ordinary deltas go straight to each backend's processor, and
 a recovery transaction (Start, Chunks, Catch-ups, Commit) is assembled privately until its
 commit replaces the named backends' state. Every function returns the state it leaves
 behind together with its outcome, also when it fails half-way.
 */
module Subscription {
  import opened Wrappers
  import opened Wire
  import opened Contracts
  import opened EntryIds
  import opened Trackers
  import opened Completeness
  import opened Replay
  import opened StateStores

  datatype ApplyError =
    | InvalidEnvelope(error: ContractError)
    | SnapshotChainMismatch
    | SnapshotBackendMissing
    | MissingBootstrapBoundary
    | RawUnsupported
    | RawConflict
    | RawDecodeFailed
    | StaleStateVersion
    | RecoveryReachedProcessor
    | InvalidRecoveryMessage
    | WatermarkOverflow
    | WatermarkMismatch
    | RepeatedStart
    | TargetNotNewer
    | BeforeStart
    | IdentityMismatch
    | BackendSetMismatch
    | OutOfOrder
    | OutsideManifest
    | EncodedSizeMismatch
    | DigestMismatch
    | CommitMismatch
    | IncompleteRecovery
    | ReplacementMismatch
    | ReplacementUndecodable
    | InvalidBoundary
    | ReplacementIncomplete
    | OrdinaryInsideRecovery

  type Done = Result<Unit, ApplyError>

  const DONE: Done := Ok(Unit)

  // One backend's processor.

  /** `head` is the stream health's last block, `reported` the replay checkpoint it reports. */
  datatype Processor = Processor(
    backend: Backend,
    logical: Backend,
    tracker: Tracker,
    raw: seq<ProtocolMessage>,
    store: Store,
    head: u64,
    bootVersion: Option<u64>,
    reported: string)

  datatype Processed = Processed(processor: Processor, done: Done)

  function RecordProgress(head: u64, block: u64): u64 {
    if block > head then block else head
  }

  datatype Decoded = Decoded(combined: Option<StoreUpdate>, block: Option<u64>, complete: Option<u64>)

  function OptionMax(current: Option<u64>, block: u64): Option<u64> {
    match current
    case None => Some(block)
    case Some(seen) => Some(Max(seen, block))
  }

  function DecodePartition(codec: Codec, backend: Backend, part: UpdatePartition): Result<Option<StoreUpdate>, ApplyError> {
    if part.messages == [] then Ok(Some(LiveUpdate(part)))
    else if backend == Rfq then Err(RawUnsupported)
    else
      match codec.rawUpdate(backend, part.messages)
      case None => Err(RawDecodeFailed)
      case Some(update) => Ok(update)
  }

  function Combine(codec: Codec, current: Option<StoreUpdate>, update: Option<StoreUpdate>): Option<StoreUpdate> {
    if update.None? then current
    else if current.None? then update
    else Some(codec.mergeUpdates(current.value, update.value))
  }

  /** The partitions of one backend, combined in order. */
  function DecodeLive(codec: Codec, backend: Backend, parts: seq<UpdatePartition>, acc: Decoded): Result<Decoded, ApplyError>
    decreases |parts|
  {
    if parts == [] then Ok(acc)
    else if parts[0].backend != backend then DecodeLive(codec, backend, parts[1..], acc)
    else
      var part := parts[0];
      var update :- DecodePartition(codec, backend, part);
      var whole := if backend == Native then CompleteBlock(part.blockNumber, part.messages, part.syncStatuses) else None;
      DecodeLive(codec, backend, parts[1..],
                 Decoded(Combine(codec, acc.combined, update),
                         OptionMax(acc.block, part.blockNumber),
                         if whole.Some? then OptionMax(acc.complete, whole.value) else acc.complete))
  }

  /** The content after a live update, at the given version or the next one. */
  function LiveContent(codec: Codec, backend: Backend, store: Store, decoded: Decoded, version: Option<u64>)
    : Result<Store, ApplyError>
  {
    if decoded.combined.None? || decoded.block.None? then Ok(store)
    else
      var update := decoded.combined.value.(block := decoded.block.value);
      match version
      case None => Ok(ApplyUpdate(codec.protocols, store, update))
      case Some(v) =>
        if v > store.content.version
        then Ok(Published(UpdateContent(codec.protocols, store.content, update, v)))
        else Err(StaleStateVersion)
  }

  function LiveHead(backend: Backend, head: u64, decoded: Decoded): u64 {
    if decoded.block.None? then head
    else
      match backend
      case Rfq => decoded.block.value
      case Native => if decoded.complete.Some? then RecordProgress(head, decoded.complete.value) else head
      case Vm => RecordProgress(head, decoded.block.value)
  }

  function ApplyLive(codec: Codec, p: Processor, update: seq<UpdatePartition>, version: Option<u64>): Processed {
    match DecodeLive(codec, p.backend, update, Decoded(None, None, None))
    case Err(e) => Processed(p, Err(e))
    case Ok(decoded) =>
      match LiveContent(codec, p.backend, p.store, decoded, version)
      case Err(e) => Processed(p, Err(e))
      case Ok(store) => Processed(p.(store := store, head := LiveHead(p.backend, p.head, decoded)), DONE)
  }

  function PushRaw(codec: Codec, p: Processor, messages: seq<ProtocolMessage>): Processed
    decreases |messages|
  {
    if messages == [] then Processed(p, DONE)
    else if !codec.rawFragmentsAgree(p.raw + [messages[0]]) then Processed(p, Err(RawConflict))
    else PushRaw(codec, p.(raw := p.raw + [messages[0]]), messages[1..])
  }

  function BufferPartition(codec: Codec, p: Processor, part: SnapshotPartition): Processed {
    if part.messages == [] then
      Processed(p.(store := ApplyUpdate(codec.protocols, p.store, SnapshotUpdate(part))), DONE)
    else if p.backend == Rfq then Processed(p, Err(RawUnsupported))
    else PushRaw(codec, p, part.messages)
  }

  function BufferPartitions(codec: Codec, p: Processor, parts: seq<SnapshotPartition>): Processed
    decreases |parts|
  {
    if parts == [] then Processed(p, DONE)
    else if parts[0].backend != p.backend then BufferPartitions(codec, p, parts[1..])
    else
      var first := BufferPartition(codec, p, parts[0]);
      if first.done.Err? then first else BufferPartitions(codec, first.processor, parts[1..])
  }

  function FinishSnapshot(codec: Codec, p: Processor): Processed {
    var drained := p.(raw := []);
    match codec.rawSnapshot(p.backend, p.raw)
    case None => Processed(drained, Err(RawDecodeFailed))
    case Some(update) =>
      var store := if update.Some? then ApplyUpdate(codec.protocols, p.store, update.value) else p.store;
      match p.bootVersion
      case None => Processed(drained.(store := store), Err(MissingBootstrapBoundary))
      case Some(version) => Processed(drained.(store := AlignVersion(store, version)), DONE)
  }

  function ObserveEnvelope(codec: Codec, chainId: u64, p: Processor, e: Envelope, version: Option<u64>): Processed {
    if e.payload.SnapshotStart? && e.payload.chainId != chainId then Processed(p, Err(SnapshotChainMismatch))
    else if e.payload.SnapshotStart? && p.backend !in e.payload.backends then Processed(p, Err(SnapshotBackendMissing))
    else
      match Trackers.Observe(codec.protocols, p.tracker, e)
      case Err(error) => Processed(p, Err(InvalidEnvelope(error)))
      case Ok((tracker, _)) =>
        var seen := p.(tracker := tracker);
        match e.payload
        case SnapshotStart(_, _, _, _) => Processed(seen.(raw := []), DONE)
        case SnapshotChunk(_, _, parts) => BufferPartitions(codec, seen, parts)
        case SnapshotEnd(_) => FinishSnapshot(codec, seen)
        case Update(update) => ApplyLive(codec, seen, update, version)
        case Heartbeat(_, _, _) => Processed(seen, DONE)
        case Progress(_, _, _, _) => Processed(seen, DONE)
        case _ => Processed(seen, Err(RecoveryReachedProcessor))
  }

  /** An ordinary stream entry: observed when its scope names the backend, skipped otherwise. */
  function ObserveDelta(codec: Codec, chainId: u64, p: Processor, entry: StreamEntry, e: Envelope): Processed {
    if p.backend in entry.scope then ObserveEnvelope(codec, chainId, p, e, Some(entry.stateVersion))
    else
      match Skip(p.tracker, e)
      case Err(error) => Processed(p, Err(InvalidEnvelope(error)))
      case Ok(tracker) => Processed(p.(tracker := tracker), DONE)
  }

  // The whole subscription.

  datatype Prepared = Prepared(processor: Processor, boundary: Boundary)

  /** A recovery under assembly: fragments keyed by their index, as they arrived. */
  datatype Assembly = Assembly(manifest: Manifest, chunks: map<u32, RecoveryChunk>, catchUps: map<u32, RecoveryCatchUp>)

  datatype Sub = Sub(
    processors: seq<Prepared>,
    boundary: Boundary,
    chainId: u64,
    recovery: Option<Assembly>,
    redisMaxlen: Option<u64>)

  datatype Applied = Applied(sub: Sub, done: Done)

  datatype Swept = Swept(processors: seq<Prepared>, done: Done)

  /** Each processor from `i` on, in order, stopping at the first failure. */
  function ObserveFrom(codec: Codec, chainId: u64, ps: seq<Prepared>, i: nat, m: ReplayMessage): Swept
    decreases |ps| - i
  {
    if i >= |ps| then Swept(ps, DONE)
    else if m.entry.messageSeq <= ps[i].boundary.exclusiveSeq then ObserveFrom(codec, chainId, ps, i + 1, m)
    else
      var one := ObserveDelta(codec, chainId, ps[i].processor, m.entry, m.envelope);
      var next := ps[i := ps[i].(processor := one.processor)];
      if one.done.Err? then Swept(next, one.done) else ObserveFrom(codec, chainId, next, i + 1, m)
  }

  // Recovery: Start.

  /** The version guard and the request fence, over the named processors in order. */
  function FenceFrom(ps: seq<Prepared>, i: nat, m: Manifest): Swept
    decreases |ps| - i
  {
    if i >= |ps| then Swept(ps, DONE)
    else if ps[i].processor.backend !in m.backends then FenceFrom(ps, i + 1, m)
    else if m.targetStateVersion <= ps[i].processor.store.content.version then Swept(ps, Err(TargetNotNewer))
    else
      var p := ps[i].processor;
      FenceFrom(ps[i := ps[i].(processor := p.(store := Fence(p.store)))], i + 1, m)
  }

  function CommitSeq(startSeq: u64, m: Manifest): nat {
    startSeq + m.chunkCount + m.bufferACount + 1
  }

  function ApplyStart(sub: Sub, seqNo: u64, m: Manifest): Applied {
    if !ValidManifest(m) then Applied(sub, Err(InvalidRecoveryMessage))
    else if CommitSeq(seqNo, m) > U64_MAX then Applied(sub, Err(WatermarkOverflow))
    else if CommitSeq(seqNo, m) != m.commitWatermark then Applied(sub, Err(WatermarkMismatch))
    else
      var taken := sub.(recovery := None);
      if sub.recovery.Some? && sub.recovery.value.manifest == m then Applied(taken, Err(RepeatedStart))
      else
        var fenced := FenceFrom(sub.processors, 0, m);
        if fenced.done.Err? then Applied(taken.(processors := fenced.processors), fenced.done)
        else Applied(sub.(processors := fenced.processors, recovery := Some(Assembly(m, map[], map[]))), DONE)
  }

  // Recovery: Chunks and Catch-ups.

  function At<T>(s: seq<T>, i: nat): Option<T> {
    if i < |s| then Some(s[i]) else None
  }

  function CheckIdentity(m: Manifest, recoveryId: string, target: u64): Done {
    if recoveryId != m.recoveryId || target != m.targetStateVersion then Err(IdentityMismatch) else DONE
  }

  function CheckChunk(codec: Codec, sub: Sub, a: Assembly, entry: StreamEntry, c: RecoveryChunk): Done {
    var m := a.manifest;
    var _ :- CheckIdentity(m, c.recoveryId, c.targetStateVersion);
    if c.backends != m.backends then Err(BackendSetMismatch)
    else if c.chunkIndex != |a.chunks| then Err(OutOfOrder)
    else if c.chunkIndex >= m.chunkCount then Err(OutsideManifest)
    else if At(m.chunkEncodedBytes, c.chunkIndex) != Some(c.encodedBytes) then Err(EncodedSizeMismatch)
    else if codec.entrySize(sub.boundary.streamKey, sub.redisMaxlen, entry) != Some(c.encodedBytes)
    then Err(EncodedSizeMismatch)
    else
      var digest := codec.digest(c.payloadFragment);
      if digest != c.digest || At(m.chunkDigests, c.chunkIndex) != Some(digest) then Err(DigestMismatch) else DONE
  }

  function ApplyChunk(codec: Codec, sub: Sub, entry: StreamEntry, c: RecoveryChunk): Applied {
    if !ValidChunk(c) then Applied(sub, Err(InvalidRecoveryMessage))
    else if sub.recovery.None? then Applied(sub, Err(BeforeStart))
    else
      var a := sub.recovery.value;
      match CheckChunk(codec, sub, a, entry, c)
      case Err(e) => Applied(sub, Err(e))
      case Ok(_) => Applied(sub.(recovery := Some(a.(chunks := a.chunks[c.chunkIndex := c]))), DONE)
  }

  function CheckCatchUp(a: Assembly, c: RecoveryCatchUp): Done {
    var m := a.manifest;
    var _ :- CheckIdentity(m, c.recoveryId, c.targetStateVersion);
    if c.blockIndex >= m.bufferACount then Err(OutsideManifest)
    else if |a.chunks| != m.chunkCount || c.blockIndex != |a.catchUps| then Err(OutOfOrder)
    else DONE
  }

  function ApplyCatchUp(codec: Codec, sub: Sub, c: RecoveryCatchUp): Applied {
    if !ValidCatchUp(codec.protocols, c) then Applied(sub, Err(InvalidRecoveryMessage))
    else if sub.recovery.None? then Applied(sub, Err(BeforeStart))
    else
      var a := sub.recovery.value;
      match CheckCatchUp(a, c)
      case Err(e) => Applied(sub, Err(e))
      case Ok(_) => Applied(sub.(recovery := Some(a.(catchUps := a.catchUps[c.blockIndex := c]))), DONE)
  }

  // Recovery: Commit.

  predicate LeastKey<T>(k: u32, m: map<u32, T>) {
    k in m && forall j :: j in m ==> k <= j
  }

  function LeastKeyOf<T>(m: map<u32, T>): (k: u32)
    requires m != map[]
    ensures LeastKey(k, m)
  {
    LeastKeyExists(m.Keys);
    var least: u32 :| least in m.Keys && forall j :: j in m.Keys ==> least <= j;
    least
  }

  ghost predicate LeastIn(k: u32, keys: set<u32>) {
    k in keys && forall j :: j in keys ==> k <= j
  }

  lemma {:induction false} LeastKeyExists(keys: set<u32>)
    requires keys != {}
    ensures exists k: u32 :: LeastIn(k, keys)
    decreases |keys|
  {
    var x: u32 :| x in keys;
    var rest := keys - {x};
    if rest == {} {
      assert keys == {x};
      assert LeastIn(x, keys);
    } else {
      LeastKeyExists(rest);
      var y: u32 :| LeastIn(y, rest);
      assert LeastIn(if x <= y then x else y, keys) by {
        LeastOfTwo(keys, x, y);
      }
    }
  }

  lemma LeastOfTwo(keys: set<u32>, x: u32, y: u32)
    requires x in keys && LeastIn(y, keys - {x})
    ensures LeastIn(if x <= y then x else y, keys)
  {
    forall j | j in keys ensures (if x <= y then x else y) <= j {
      assert j == x || j in keys - {x};
    }
  }

  /** An ordered map's values in ascending key order. */
  function ValuesInOrder<T>(m: map<u32, T>): seq<T>
    decreases |m|
  {
    if m == map[] then []
    else
      var k := LeastKeyOf(m);
      assert (m - {k}).Keys == m.Keys - {k};
      [m[k]] + ValuesInOrder(m - {k})
  }

  function JoinFragments(chunks: seq<RecoveryChunk>): string {
    if chunks == [] then "" else chunks[0].payloadFragment + JoinFragments(chunks[1..])
  }

  /** `processor.recovery_copy`: private, empty, aligned to the commit's version. */
  function RecoveryCopy(p: Processor, version: u64): Processor {
    p.(tracker := FRESH, raw := [], store := EMPTY_STORE, head := 0, bootVersion := Some(version),
        reported := "")
  }

  function ReplaySnapshot(codec: Codec, chainId: u64, p: Processor, snapshot: seq<Envelope>): Processed
    decreases |snapshot|
  {
    if snapshot == [] then Processed(p, DONE)
    else
      var one := ObserveEnvelope(codec, chainId, p, snapshot[0], None);
      if one.done.Err? then one else ReplaySnapshot(codec, chainId, one.processor, snapshot[1..])
  }

  function ReplayCatchUps(codec: Codec, p: Processor, catchUps: seq<RecoveryCatchUp>): Processed
    decreases |catchUps|
  {
    if catchUps == [] then Processed(p, DONE)
    else
      var one := ApplyLive(codec, p, catchUps[0].update, None);
      if one.done.Err? then one else ReplayCatchUps(codec, one.processor, catchUps[1..])
  }

  /** The candidate state of one named backend. */
  function Rebuild(codec: Codec, chainId: u64, p: Processor, version: u64, snapshot: seq<Envelope>,
                   catchUps: seq<RecoveryCatchUp>): Result<Store, ApplyError>
  {
    var replayed := ReplaySnapshot(codec, chainId, RecoveryCopy(p, version), snapshot);
    if replayed.done.Err? then Err(replayed.done.error)
    else if !replayed.processor.tracker.state.Live? then Err(ReplacementIncomplete)
    else
      var caughtUp := ReplayCatchUps(codec, replayed.processor, catchUps);
      if caughtUp.done.Err? then Err(caughtUp.done.error) else Ok(caughtUp.processor.store)
  }

  /** Candidates for the processors from `i` on; None where the manifest names no such backend. */
  function CandidatesFrom(codec: Codec, sub: Sub, i: nat, m: Manifest, snapshot: seq<Envelope>,
                          catchUps: seq<RecoveryCatchUp>): Result<seq<Option<Store>>, ApplyError>
    requires i <= |sub.processors|
    ensures CandidatesFrom(codec, sub, i, m, snapshot, catchUps).Ok? ==>
      |CandidatesFrom(codec, sub, i, m, snapshot, catchUps).value| == |sub.processors| - i
    decreases |sub.processors| - i
  {
    if i == |sub.processors| then Ok([])
    else
      var p := sub.processors[i].processor;
      if p.backend !in m.backends then
        var rest :- CandidatesFrom(codec, sub, i + 1, m, snapshot, catchUps);
        Ok([None] + rest)
      else
        var store :- Rebuild(codec, sub.chainId, p, m.targetStateVersion, snapshot, catchUps);
        var rest :- CandidatesFrom(codec, sub, i + 1, m, snapshot, catchUps);
        Ok([Some(store)] + rest)
  }

  function CommittedHead(p: Processor, block: u64, complete: Option<u64>): u64 {
    match p.logical
    case Rfq => block
    case Native => if complete.Some? then RecordProgress(p.head, complete.value) else p.head
    case Vm => RecordProgress(p.head, block)
  }

  /** The version-guarded swap of each named live store, in order. */
  function PublishFrom(ps: seq<Prepared>, i: nat, candidates: seq<Option<Store>>, version: u64, complete: Option<u64>): Swept
    requires |candidates| == |ps|
    decreases |ps| - i
  {
    if i >= |ps| then Swept(ps, DONE)
    else if candidates[i].None? then PublishFrom(ps, i + 1, candidates, version, complete)
    else if version <= ps[i].processor.store.content.version then Swept(ps, Err(StaleStateVersion))
    else
      var p := ps[i].processor;
      var content := candidates[i].value.content.(version := version);
      var swapped := p.(store := Published(content), head := CommittedHead(p, content.block, complete));
      PublishFrom(ps[i := ps[i].(processor := swapped)], i + 1, candidates, version, complete)
  }

  function AlignFrom(ps: seq<Prepared>, i: nat, boundary: Boundary): Swept
    decreases |ps| - i
  {
    if i >= |ps| then Swept(ps, DONE)
    else
      match Align(ps[i].processor.tracker, boundary)
      case Err(error) => Swept(ps, Err(InvalidEnvelope(error)))
      case Ok(tracker) =>
        AlignFrom(ps[i := Prepared(ps[i].processor.(tracker := tracker), boundary)], i + 1, boundary)
  }

  predicate ValidBoundary(b: Boundary) {
    !Blank(b.streamKey) && !Blank(b.streamId) && !Blank(b.snapshotId) && b.generation != 0
  }

  function MaxOption(a: Option<u64>, b: Option<u64>): Option<u64> {
    if b.None? then a else OptionMax(a, b.value)
  }

  function PartitionsComplete(parts: seq<SnapshotPartition>): Option<u64>
    decreases |parts|
  {
    if parts == [] then None
    else
      MaxOption(if parts[0].backend == Native
                then CompleteBlock(parts[0].blockNumber, parts[0].messages, parts[0].syncStatuses) else None,
                PartitionsComplete(parts[1..]))
  }

  function SnapshotComplete(snapshot: seq<Envelope>): Option<u64>
    decreases |snapshot|
  {
    if snapshot == [] then None
    else
      MaxOption(match snapshot[0].payload
                case SnapshotChunk(_, _, parts) => PartitionsComplete(parts)
                case _ => None,
                SnapshotComplete(snapshot[1..]))
  }

  function CatchUpsComplete(catchUps: seq<RecoveryCatchUp>): Option<u64>
    decreases |catchUps|
  {
    if catchUps == [] then None else MaxOption(UpdateComplete(catchUps[0].update), CatchUpsComplete(catchUps[1..]))
  }

  /** The highest complete native block a committed recovery carries. */
  function CommittedComplete(snapshot: seq<Envelope>, catchUps: seq<RecoveryCatchUp>): Option<u64> {
    MaxOption(SnapshotComplete(snapshot), CatchUpsComplete(catchUps))
  }

  predicate CommitMatches(m: Manifest, seqNo: u64, c: RecoveryCommit) {
    && c.backends == m.backends
    && c.replacementDigest == m.replacementDigest
    && c.bufferACount == m.bufferACount
    && c.commitWatermark == m.commitWatermark
    && seqNo == c.commitWatermark
  }

  /** Everything a commit checks and decodes before it looks at any processor. */
  function CheckCommit(codec: Codec, sub: Sub, a: Assembly, seqNo: u64, c: RecoveryCommit): Result<seq<Envelope>, ApplyError> {
    var m := a.manifest;
    match CheckIdentity(m, c.recoveryId, c.targetStateVersion)
    case Err(e) => Err(e)
    case Ok(_) =>
      if !CommitMatches(m, seqNo, c) then Err(CommitMismatch)
      else if |a.chunks| != m.chunkCount || |a.catchUps| != m.bufferACount then Err(IncompleteRecovery)
      else
        var json := JoinFragments(ValuesInOrder(a.chunks));
        if codec.byteLength(json) != m.replacementEncodedBytes || codec.digest(json) != m.replacementDigest
        then Err(ReplacementMismatch)
        else
          match codec.replacement(json)
          case None => Err(ReplacementUndecodable)
          case Some(snapshot) =>
            if ValidBoundary(sub.boundary) then Ok(snapshot) else Err(InvalidBoundary)
  }

  function CommitBoundary(b: Boundary, seqNo: u64, version: u64): Boundary {
    b.(exclusiveSeq := seqNo, stateVersion := version)
  }

  /** The swap itself: publish every candidate, then align every tracker. */
  function PublishCommit(sub: Sub, seqNo: u64, m: Manifest, candidates: seq<Option<Store>>, complete: Option<u64>): Applied
    requires |candidates| == |sub.processors|
  {
    var published := PublishFrom(sub.processors, 0, candidates, m.targetStateVersion, complete);
    if published.done.Err? then Applied(sub.(processors := published.processors), published.done)
    else
      var boundary := CommitBoundary(sub.boundary, seqNo, m.targetStateVersion);
      var aligned := AlignFrom(published.processors, 0, boundary);
      if aligned.done.Err? then Applied(sub.(processors := aligned.processors), aligned.done)
      else Applied(sub.(processors := aligned.processors, boundary := boundary), DONE)
  }

  function CommitRecovery(codec: Codec, sub: Sub, seqNo: u64, c: RecoveryCommit): Applied {
    match sub.recovery
    case None => Applied(sub, Err(BeforeStart))
    case Some(a) =>
      var taken := sub.(recovery := None);
      match CheckCommit(codec, sub, a, seqNo, c)
      case Err(e) => Applied(taken, Err(e))
      case Ok(snapshot) =>
        var catchUps := ValuesInOrder(a.catchUps);
        match CandidatesFrom(codec, sub, 0, a.manifest, snapshot, catchUps)
        case Err(e) => Applied(taken, Err(e))
        case Ok(candidates) =>
          PublishCommit(taken, seqNo, a.manifest, candidates, CommittedComplete(snapshot, catchUps))
  }

  function ApplyRecoveryMessage(codec: Codec, sub: Sub, m: ReplayMessage): Applied {
    match m.envelope.payload
    case Start(manifest) => ApplyStart(sub, m.entry.messageSeq, manifest)
    case Chunk(chunk) => ApplyChunk(codec, sub, m.entry, chunk)
    case CatchUp(catchUp) => ApplyCatchUp(codec, sub, catchUp)
    case Commit(commit) =>
      if !ValidCommit(commit) then Applied(sub, Err(InvalidRecoveryMessage))
      else CommitRecovery(codec, sub, m.entry.messageSeq, commit)
    case _ => Applied(sub, Err(OrdinaryInsideRecovery))
  }

  /** One replayed message, before the checkpoint moves. */
  function ApplyOne(codec: Codec, sub: Sub, m: ReplayMessage): Applied {
    if m.envelope.payload.Recovery() || sub.recovery.Some? then ApplyRecoveryMessage(codec, sub, m)
    else
      var swept := ObserveFrom(codec, sub.chainId, sub.processors, 0, m);
      Applied(sub.(processors := swept.processors), swept.done)
  }

  /** The replay checkpoint each backend reports after a message. */
  function ReportedFor(p: Prepared, c: Checkpoint): string {
    if c.lastSeq < p.boundary.exclusiveSeq then PrintEntryId(p.boundary.generation, p.boundary.exclusiveSeq) else c.entryId
  }

  function MarkReplay(ps: seq<Prepared>, c: Checkpoint): (marked: seq<Prepared>)
    ensures |marked| == |ps|
    ensures forall i :: 0 <= i < |ps| ==>
      marked[i] == ps[i].(processor := ps[i].processor.(reported := ReportedFor(ps[i], c)))
  {
    seq(|ps|, i requires 0 <= i < |ps| => ps[i].(processor := ps[i].processor.(reported := ReportedFor(ps[i], c))))
  }

  /** The subscription once `m` is reported as its replay checkpoint. */
  function Marked(s: Sub, m: ReplayMessage): Sub {
    s.(processors := MarkReplay(s.processors, m.checkpointAfter))
  }
}
