/** The broadcaster's wire messages, shared by the publisher side and every subscriber. */
module Wire {
  import opened Wrappers

  datatype Backend = Native | Vm | Rfq

  datatype ProtocolKind =
    | UniswapV2 | UniswapV3 | UniswapV4 | AerodromeSlipstreams | Curve | PancakeswapV2
    | PancakeswapV3 | EkuboV2 | SushiswapV2 | MaverickV2 | BalancerV2 | FluidV1 | Rocketpool
    | EkuboV3 | ERC4626 | Hashflow | Bebop | Liquorice

  function BackendForKind(kind: ProtocolKind): Backend {
    match kind
    case Curve | BalancerV2 | MaverickV2 => Vm
    case Hashflow | Bebop | Liquorice => Rfq
    case _ => Native
  }

  /** Every kind belongs to one backend: three are simulated in the VM, three quoted by RFQ, the rest are native. */
  lemma KindsByBackend(kind: ProtocolKind)
    ensures BackendForKind(kind) == Vm <==> kind in {Curve, BalancerV2, MaverickV2}
    ensures BackendForKind(kind) == Rfq <==> kind in {Hashflow, Bebop, Liquorice}
    ensures BackendForKind(kind) == Native <==>
      kind in {UniswapV2, UniswapV3, UniswapV4, AerodromeSlipstreams, PancakeswapV2, PancakeswapV3, EkuboV2, SushiswapV2,
               FluidV1, Rocketpool, EkuboV3, ERC4626}
  {
  }

  /** A component's protocol names; `details` stands for the rest of its data. */
  datatype Component = Component(protocolSystem: string, protocolTypeName: string, details: string)

  /** The name tables of `ProtocolKind`, left uninterpreted. */
  datatype Protocols = Protocols(
    syncStateKind: string -> Option<ProtocolKind>,
    componentKind: Component -> Option<ProtocolKind>)
  {
    function SyncBackend(protocol: string): Option<Backend> {
      match syncStateKind(protocol)
      case Some(kind) => Some(BackendForKind(kind))
      case None => None
    }

    function ComponentBackend(component: Component): Option<Backend> {
      match componentKind(component)
      case Some(kind) => Some(BackendForKind(kind))
      case None => None
    }
  }

  datatype Header = Header(
    hash: string, number: u64, parentHash: string, revert: bool, timestamp: u64,
    partialBlockIndex: Option<u32>)

  datatype SynchronizerState =
    | Started
    | Ready(header: Header)
    | Delayed(header: Header)
    | Stale(header: Header)
    | Advanced(header: Header)
    | Ended(reason: string)

  datatype SyncStatusKind =
    | StatusStarted | StatusReady | StatusDelayed | StatusStale | StatusAdvanced | StatusEnded

  datatype SyncStatus = SyncStatus(kind: SyncStatusKind, block: Option<Header>, reason: Option<string>)

  function StatusOf(state: SynchronizerState): SyncStatus {
    match state
    case Started => SyncStatus(StatusStarted, None, None)
    case Ready(h) => SyncStatus(StatusReady, Some(h), None)
    case Delayed(h) => SyncStatus(StatusDelayed, Some(h), None)
    case Stale(h) => SyncStatus(StatusStale, Some(h), None)
    case Advanced(h) => SyncStatus(StatusAdvanced, Some(h), None)
    case Ended(reason) => SyncStatus(StatusEnded, None, Some(reason))
  }

  /** The state carries the header. */
  ghost predicate Reports(state: SynchronizerState, h: Header) {
    state == Ready(h) || state == Delayed(h) || state == Stale(h) || state == Advanced(h)
  }

  /** A status determines the state it was made from, its header and its reason. */
  lemma StatusDeterminesState(s: SynchronizerState, t: SynchronizerState)
    ensures StatusOf(s) == StatusOf(t) <==> s == t
    ensures forall h :: StatusOf(s).block == Some(h) <==> Reports(s, h)
    ensures forall reason :: StatusOf(s).reason == Some(reason) <==> s == Ended(reason)
    ensures StatusOf(s).kind == StatusReady <==> s.Ready?
    ensures StatusOf(s).kind == StatusStarted <==> s.Started?
    ensures StatusOf(s).kind == StatusDelayed <==> s.Delayed?
    ensures StatusOf(s).kind == StatusStale <==> s.Stale?
    ensures StatusOf(s).kind == StatusAdvanced <==> s.Advanced?
    ensures StatusOf(s).kind == StatusEnded <==> s.Ended?
  {
  }

  /** One protocol's raw feed message; `body` stands for its snapshots and deltas. */
  datatype ProtocolMessage = ProtocolMessage(
    protocol: string, syncState: SynchronizerState, header: Header, body: string)

  datatype StateEntry = StateEntry(componentId: string, component: Component, state: string)
  datatype StateDelta = StateDelta(componentId: string, backend: Backend, state: string)
  datatype RemovedPair = RemovedPair(componentId: string, component: Component)

  datatype UpdatePartition = UpdatePartition(
    backend: Backend,
    blockNumber: u64,
    messages: seq<ProtocolMessage>,
    newPairs: seq<StateEntry>,
    updatedStates: seq<StateDelta>,
    removedPairs: seq<RemovedPair>,
    syncStatuses: map<string, SyncStatus>)
  {
    predicate IsEmpty() {
      messages == [] && newPairs == [] && updatedStates == [] && removedPairs == []
      && syncStatuses == map[]
    }
  }

  datatype SnapshotPartition = SnapshotPartition(
    backend: Backend,
    blockNumber: u64,
    messages: seq<ProtocolMessage>,
    states: seq<StateEntry>,
    syncStatuses: map<string, SyncStatus>)

  datatype BackendHead = BackendHead(backend: Backend, blockNumber: u64)

  datatype Manifest = Manifest(
    recoveryId: string,
    targetStateVersion: u64,
    backends: seq<Backend>,
    chunkCount: u32,
    replacementEncodedBytes: u64,
    chunkEncodedBytes: seq<u64>,
    chunkDigests: seq<string>,
    replacementDigest: string,
    bufferACount: u32,
    commitWatermark: u64)

  datatype RecoveryChunk = RecoveryChunk(
    recoveryId: string,
    targetStateVersion: u64,
    backends: seq<Backend>,
    chunkIndex: u32,
    encodedBytes: u64,
    digest: string,
    payloadFragment: string)

  datatype RecoveryCatchUp = RecoveryCatchUp(
    recoveryId: string, targetStateVersion: u64, blockIndex: u32, update: seq<UpdatePartition>)

  datatype RecoveryCommit = RecoveryCommit(
    recoveryId: string,
    targetStateVersion: u64,
    backends: seq<Backend>,
    replacementDigest: string,
    bufferACount: u32,
    commitWatermark: u64)

  datatype Payload =
    | SnapshotStart(snapshotId: string, chainId: u64, backends: seq<Backend>, totalChunks: u32)
    | SnapshotChunk(snapshotId: string, chunkIndex: u32, partitions: seq<SnapshotPartition>)
    | SnapshotEnd(snapshotId: string)
    | Start(manifest: Manifest)
    | Chunk(chunk: RecoveryChunk)
    | CatchUp(catchUp: RecoveryCatchUp)
    | Commit(commit: RecoveryCommit)
    | Update(update: seq<UpdatePartition>)
    | Heartbeat(chainId: u64, snapshotId: string, heads: seq<BackendHead>)
    | Progress(chainId: u64, snapshotId: string, backends: seq<Backend>, reason: string)
  {
    /** Messages of the private recovery transaction. */
    predicate Recovery() {
      Start? || Chunk? || CatchUp? || Commit?
    }

    /** The live messages a tracker may accept or skip. */
    predicate Ordinary() {
      Update? || Heartbeat? || Progress?
    }
  }

  datatype Envelope = Envelope(streamId: string, messageSeq: u64, payload: Payload)

  /** Where a snapshot ends and replay begins. */
  datatype Boundary = Boundary(
    streamKey: string,
    streamId: string,
    snapshotId: string,
    generation: u64,
    exclusiveSeq: u64,
    stateVersion: u64)

  function BackendSet(backends: seq<Backend>): set<Backend> {
    set i | 0 <= i < |backends| :: backends[i]
  }

  function Heads(heads: seq<BackendHead>): (bs: seq<Backend>)
    ensures |bs| == |heads| && forall i :: 0 <= i < |heads| ==> bs[i] == heads[i].backend
  {
    seq(|heads|, i requires 0 <= i < |heads| => heads[i].backend)
  }

  function UpdateBackends(partitions: seq<UpdatePartition>): (bs: seq<Backend>)
    ensures |bs| == |partitions|
    ensures forall i :: 0 <= i < |partitions| ==> bs[i] == partitions[i].backend
  {
    seq(|partitions|, i requires 0 <= i < |partitions| => partitions[i].backend)
  }

  function SnapshotBackends(partitions: seq<SnapshotPartition>): (bs: seq<Backend>)
    ensures |bs| == |partitions|
    ensures forall i :: 0 <= i < |partitions| ==> bs[i] == partitions[i].backend
  {
    seq(|partitions|, i requires 0 <= i < |partitions| => partitions[i].backend)
  }
}
