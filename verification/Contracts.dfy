/**
 The message contracts: uniqueness of backends, partition contents placed under their own
 backend, and the recovery messages' field checks. Each check returns the first violation.
 */
module Contracts {
  import opened Wrappers
  import opened Wire

  datatype ContractError =
    | ExpectedSnapshotStart
    | UnexpectedStreamId(expected: string, found: string)
    | UnexpectedChainId(expectedChain: u64, foundChain: u64)
    | UnexpectedMessageSeq(expectedSeq: u64, foundSeq: u64)
    | MessageSequenceOverflow(messageSeq: u64)
    | UnexpectedSnapshotStart
    | UnexpectedSnapshotChunk
    | UnexpectedSnapshotEnd
    | UnexpectedRecoveryMessage
    | UnexpectedSnapshotId(expected: string, found: string)
    | UnexpectedChunkIndex(expectedIndex: u32, foundIndex: u32)
    | ExtraSnapshotChunk(totalChunks: u32, foundIndex: u32)
    | SnapshotIncomplete(expectedChunks: u32, observedChunks: u32)
    | MissingDeclaredSnapshotBackends(missing: set<Backend>)
    | UpdateBeforeSnapshotComplete
    | HeartbeatBeforeSnapshotComplete
    | ProgressBeforeSnapshotComplete
    | BoundaryBeforeSnapshotComplete
    | EmptyUpdate
    | RecoveryManifestInvalid
    | EmptyUpdatePartition(backend: Backend)
    | DuplicateBackendEntry(backend: Backend)
    | UndeclaredBackendEntry(backend: Backend)
    | NewPairMissingState(componentId: string)
    | UnknownComponentProtocol(componentId: string)
    | StateBackendMissing(componentId: string)
    | UnknownSyncStateProtocol(protocol: string)
    | MisplacedSyncStatus
    | PartitionContentBackendMismatch(entry: string, partitionBackend: Backend, entryBackend: Backend)

  type Check = Result<Unit, ContractError>

  const PASS: Check := Ok(Unit)

  function EnsureStreamId(expected: string, found: string): Check {
    if expected == found then PASS else Err(UnexpectedStreamId(expected, found))
  }

  function EnsureChainId(expected: u64, found: u64): Check {
    if expected == found then PASS else Err(UnexpectedChainId(expected, found))
  }

  function EnsureSnapshotId(expected: string, found: string): Check {
    if expected == found then PASS else Err(UnexpectedSnapshotId(expected, found))
  }

  function EnsureMessageSeq(expected: Option<u64>, found: u64): Check {
    if expected == Some(found) then PASS
    else Err(UnexpectedMessageSeq(if expected.Some? then expected.value else found, found))
  }

  function NextMessageSeq(messageSeq: u64): Result<u64, ContractError> {
    match CheckedSucc(messageSeq)
    case Some(next) => Ok(next)
    case None => Err(MessageSequenceOverflow(messageSeq))
  }

  // Uniqueness: the source grows a `seen` set while it walks the entries.

  ghost predicate Distinct(backends: seq<Backend>) {
    forall i, j :: 0 <= i < j < |backends| ==> backends[i] != backends[j]
  }

  function ValidateUniqueFrom(backends: seq<Backend>, seen: set<Backend>): Check
    decreases |backends|
  {
    if backends == [] then PASS
    else if backends[0] in seen then Err(DuplicateBackendEntry(backends[0]))
    else ValidateUniqueFrom(backends[1..], seen + {backends[0]})
  }

  function ValidateUnique(backends: seq<Backend>): Check {
    ValidateUniqueFrom(backends, {})
  }

  method CheckUnique(backends: seq<Backend>) returns (r: Check)
    ensures r == ValidateUnique(backends)
    ensures r.Ok? <==> Distinct(backends)
  {
    var seen: set<Backend> := {};
    UniqueMeansDistinct(backends, {});
    for i := 0 to |backends|
      invariant ValidateUnique(backends) == ValidateUniqueFrom(backends[i..], seen)
    {
      assert backends[i..][1..] == backends[i + 1..];
      if backends[i] in seen {
        return Err(DuplicateBackendEntry(backends[i]));
      }
      seen := seen + {backends[i]};
    }
    return PASS;
  }

  lemma {:induction false} UniqueMeansDistinct(backends: seq<Backend>, seen: set<Backend>)
    ensures ValidateUniqueFrom(backends, seen).Ok?
       <==> (Distinct(backends) && forall i :: 0 <= i < |backends| ==> backends[i] !in seen)
    decreases |backends|
  {
    if backends != [] && backends[0] !in seen {
      var rest := backends[1..];
      UniqueMeansDistinct(rest, seen + {backends[0]});
      assert forall i :: 0 < i < |backends| ==> backends[i] == rest[i - 1];
      if Distinct(backends) && forall i :: 0 <= i < |backends| ==> backends[i] !in seen {
        assert forall i :: 0 <= i < |rest| ==> rest[i] == backends[i + 1];
      }
    }
  }

  function ValidateDeclared(backends: seq<Backend>, declared: set<Backend>): Check
    decreases |backends|
  {
    if backends == [] then PASS
    else if backends[0] !in declared then Err(UndeclaredBackendEntry(backends[0]))
    else ValidateDeclared(backends[1..], declared)
  }

  lemma {:induction false} DeclaredMeansSubset(backends: seq<Backend>, declared: set<Backend>)
    ensures ValidateDeclared(backends, declared).Ok?
       <==> forall i :: 0 <= i < |backends| ==> backends[i] in declared
    decreases |backends|
  {
    if backends != [] && backends[0] in declared {
      DeclaredMeansSubset(backends[1..], declared);
      assert forall i :: 0 < i < |backends| ==> backends[i] == backends[1..][i - 1];
    }
  }

  // Partition contents.

  function PlacedUnder(entry: string, partition: Backend, found: Backend): Check {
    if partition == found then PASS
    else Err(PartitionContentBackendMismatch(entry, partition, found))
  }

  function CheckSyncKey(p: Protocols, backend: Backend, protocol: string): Check {
    match p.SyncBackend(protocol)
    case None => Err(UnknownSyncStateProtocol(protocol))
    case Some(found) => PlacedUnder(protocol, backend, found)
  }

  function CheckComponent(p: Protocols, backend: Backend, id: string, component: Component): Check {
    match p.ComponentBackend(component)
    case None => Err(UnknownComponentProtocol(id))
    case Some(found) => PlacedUnder(id, backend, found)
  }

  function CheckMessages(p: Protocols, backend: Backend, messages: seq<ProtocolMessage>): Check {
    if messages == [] then PASS
    else
      var _ :- CheckSyncKey(p, backend, messages[0].protocol);
      CheckMessages(p, backend, messages[1..])
  }

  function CheckEntries(p: Protocols, backend: Backend, entries: seq<StateEntry>): Check {
    if entries == [] then PASS
    else
      var _ :- CheckComponent(p, backend, entries[0].componentId, entries[0].component);
      CheckEntries(p, backend, entries[1..])
  }

  function CheckDeltas(backend: Backend, deltas: seq<StateDelta>): Check {
    if deltas == [] then PASS
    else
      var _ :- PlacedUnder(deltas[0].componentId, backend, deltas[0].backend);
      CheckDeltas(backend, deltas[1..])
  }

  function CheckRemovals(p: Protocols, backend: Backend, removed: seq<RemovedPair>): Check {
    if removed == [] then PASS
    else
      var _ :- CheckComponent(p, backend, removed[0].componentId, removed[0].component);
      CheckRemovals(p, backend, removed[1..])
  }

  /** One error stands for an unknown or a foreign status key, whichever key comes first. */
  function CheckStatuses(p: Protocols, backend: Backend, statuses: map<string, SyncStatus>): Check {
    if forall key :: key in statuses ==> p.SyncBackend(key) == Some(backend) then PASS
    else Err(MisplacedSyncStatus)
  }

  function CheckUpdatePartition(p: Protocols, part: UpdatePartition): Check {
    var _ :- CheckMessages(p, part.backend, part.messages);
    var _ :- CheckEntries(p, part.backend, part.newPairs);
    var _ :- CheckDeltas(part.backend, part.updatedStates);
    var _ :- CheckRemovals(p, part.backend, part.removedPairs);
    CheckStatuses(p, part.backend, part.syncStatuses)
  }

  function CheckUpdateContents(p: Protocols, parts: seq<UpdatePartition>): Check {
    if parts == [] then PASS
    else
      var _ :- CheckUpdatePartition(p, parts[0]);
      CheckUpdateContents(p, parts[1..])
  }

  function CheckNonEmpty(parts: seq<UpdatePartition>): Check {
    if parts == [] then PASS
    else if parts[0].IsEmpty() then Err(EmptyUpdatePartition(parts[0].backend))
    else CheckNonEmpty(parts[1..])
  }

  function ValidateUpdate(p: Protocols, parts: seq<UpdatePartition>): Check {
    if parts == [] then Err(EmptyUpdate)
    else
      var _ :- ValidateUnique(UpdateBackends(parts));
      var _ :- CheckNonEmpty(parts);
      CheckUpdateContents(p, parts)
  }

  function CheckSnapshotContents(p: Protocols, parts: seq<SnapshotPartition>): Check {
    if parts == [] then PASS
    else
      var _ :- CheckMessages(p, parts[0].backend, parts[0].messages);
      var _ :- CheckEntries(p, parts[0].backend, parts[0].states);
      var _ :- CheckStatuses(p, parts[0].backend, parts[0].syncStatuses);
      CheckSnapshotContents(p, parts[1..])
  }

  function ValidateSnapshotChunk(p: Protocols, parts: seq<SnapshotPartition>): Check {
    var _ :- ValidateUnique(SnapshotBackends(parts));
    CheckSnapshotContents(p, parts)
  }

  /** What the update validator means: every entry sits under its own backend. */
  ghost predicate WellPlaced(p: Protocols, part: UpdatePartition) {
    && (forall i :: 0 <= i < |part.messages| ==>
          p.SyncBackend(part.messages[i].protocol) == Some(part.backend))
    && (forall i :: 0 <= i < |part.newPairs| ==>
          p.ComponentBackend(part.newPairs[i].component) == Some(part.backend))
    && (forall i :: 0 <= i < |part.updatedStates| ==> part.updatedStates[i].backend == part.backend)
    && (forall i :: 0 <= i < |part.removedPairs| ==>
          p.ComponentBackend(part.removedPairs[i].component) == Some(part.backend))
    && (forall key :: key in part.syncStatuses ==> p.SyncBackend(key) == Some(part.backend))
  }

  lemma {:induction false} MessagesPlaced(p: Protocols, b: Backend, ms: seq<ProtocolMessage>)
    ensures CheckMessages(p, b, ms).Ok?
       <==> forall i :: 0 <= i < |ms| ==> p.SyncBackend(ms[i].protocol) == Some(b)
  {
    if ms != [] {
      MessagesPlaced(p, b, ms[1..]);
      assert forall i :: 0 < i < |ms| ==> ms[i] == ms[1..][i - 1];
    }
  }

  lemma {:induction false} EntriesPlaced(p: Protocols, b: Backend, es: seq<StateEntry>)
    ensures CheckEntries(p, b, es).Ok?
       <==> forall i :: 0 <= i < |es| ==> p.ComponentBackend(es[i].component) == Some(b)
  {
    if es != [] {
      EntriesPlaced(p, b, es[1..]);
      assert forall i :: 0 < i < |es| ==> es[i] == es[1..][i - 1];
    }
  }

  lemma {:induction false} DeltasPlaced(b: Backend, ds: seq<StateDelta>)
    ensures CheckDeltas(b, ds).Ok? <==> forall i :: 0 <= i < |ds| ==> ds[i].backend == b
  {
    if ds != [] {
      DeltasPlaced(b, ds[1..]);
      assert forall i :: 0 < i < |ds| ==> ds[i] == ds[1..][i - 1];
    }
  }

  lemma {:induction false} RemovalsPlaced(p: Protocols, b: Backend, rs: seq<RemovedPair>)
    ensures CheckRemovals(p, b, rs).Ok?
       <==> forall i :: 0 <= i < |rs| ==> p.ComponentBackend(rs[i].component) == Some(b)
  {
    if rs != [] {
      RemovalsPlaced(p, b, rs[1..]);
      assert forall i :: 0 < i < |rs| ==> rs[i] == rs[1..][i - 1];
    }
  }

  lemma PartitionPlaced(p: Protocols, part: UpdatePartition)
    ensures CheckUpdatePartition(p, part).Ok? <==> WellPlaced(p, part)
  {
    MessagesPlaced(p, part.backend, part.messages);
    EntriesPlaced(p, part.backend, part.newPairs);
    DeltasPlaced(part.backend, part.updatedStates);
    RemovalsPlaced(p, part.backend, part.removedPairs);
  }

  lemma {:induction false} ContentsPlaced(p: Protocols, parts: seq<UpdatePartition>)
    ensures CheckUpdateContents(p, parts).Ok?
       <==> forall i :: 0 <= i < |parts| ==> WellPlaced(p, parts[i])
  {
    if parts != [] {
      PartitionPlaced(p, parts[0]);
      ContentsPlaced(p, parts[1..]);
      assert forall i :: 0 < i < |parts| ==> parts[i] == parts[1..][i - 1];
    }
  }

  lemma {:induction false} NonEmptyParts(parts: seq<UpdatePartition>)
    ensures CheckNonEmpty(parts).Ok?
       <==> forall i :: 0 <= i < |parts| ==> !parts[i].IsEmpty()
  {
    if parts != [] {
      NonEmptyParts(parts[1..]);
      assert forall i :: 0 < i < |parts| ==> parts[i] == parts[1..][i - 1];
    }
  }

  ghost predicate ValidUpdate(p: Protocols, parts: seq<UpdatePartition>) {
    && parts != []
    && (forall i, j :: 0 <= i < j < |parts| ==> parts[i].backend != parts[j].backend)
    && forall i :: 0 <= i < |parts| ==> !parts[i].IsEmpty() && WellPlaced(p, parts[i])
  }

  /** The update validator accepts exactly the well-formed updates. */
  lemma ValidateUpdateExact(p: Protocols, parts: seq<UpdatePartition>)
    ensures ValidateUpdate(p, parts).Ok? <==> ValidUpdate(p, parts)
  {
    UniqueMeansDistinct(UpdateBackends(parts), {});
    NonEmptyParts(parts);
    ContentsPlaced(p, parts);
    var bs := UpdateBackends(parts);
    assert Distinct(bs) <==> forall i, j :: 0 <= i < j < |parts| ==> parts[i].backend != parts[j].backend;
  }

  /** What the snapshot chunk validator means. */
  ghost predicate SnapshotPlaced(p: Protocols, part: SnapshotPartition) {
    && (forall i :: 0 <= i < |part.messages| ==> p.SyncBackend(part.messages[i].protocol) == Some(part.backend))
    && (forall i :: 0 <= i < |part.states| ==> p.ComponentBackend(part.states[i].component) == Some(part.backend))
    && (forall key :: key in part.syncStatuses ==> p.SyncBackend(key) == Some(part.backend))
  }

  lemma {:induction false} SnapshotContentsPlaced(p: Protocols, parts: seq<SnapshotPartition>)
    ensures CheckSnapshotContents(p, parts).Ok? <==> forall i :: 0 <= i < |parts| ==> SnapshotPlaced(p, parts[i])
  {
    if parts != [] {
      MessagesPlaced(p, parts[0].backend, parts[0].messages);
      EntriesPlaced(p, parts[0].backend, parts[0].states);
      SnapshotContentsPlaced(p, parts[1..]);
      assert forall i :: 0 < i < |parts| ==> parts[i] == parts[1..][i - 1];
    }
  }

  /** The snapshot chunk validator accepts exactly distinct partitions with contents of their own backend. */
  lemma ValidateSnapshotChunkExact(p: Protocols, parts: seq<SnapshotPartition>)
    ensures ValidateSnapshotChunk(p, parts).Ok? <==>
      && (forall i, j :: 0 <= i < j < |parts| ==> parts[i].backend != parts[j].backend)
      && forall i :: 0 <= i < |parts| ==> SnapshotPlaced(p, parts[i])
  {
    UniqueMeansDistinct(SnapshotBackends(parts), {});
    SnapshotContentsPlaced(p, parts);
    var bs := SnapshotBackends(parts);
    assert Distinct(bs) <==> forall i, j :: 0 <= i < j < |parts| ==> parts[i].backend != parts[j].backend;
  }

  // Recovery messages.

  /** `str::trim().is_empty()` for the blank characters the wire can carry. */
  predicate Blank(s: string) {
    forall i :: 0 <= i < |s| ==> s[i] in {' ', '\t', '\n', '\r'}
  }

  predicate ValidRecoveryBackends(backends: seq<Backend>) {
    backends != [] && ValidateUnique(backends).Ok?
  }

  predicate ValidManifest(m: Manifest) {
    && !Blank(m.recoveryId)
    && m.targetStateVersion > 0
    && ValidRecoveryBackends(m.backends)
    && m.chunkCount > 0
    && m.chunkCount == |m.chunkEncodedBytes|
    && m.chunkCount == |m.chunkDigests|
    && m.replacementEncodedBytes > 0
    && 0 !in m.chunkEncodedBytes
    && (forall i :: 0 <= i < |m.chunkDigests| ==> !Blank(m.chunkDigests[i]))
    && !Blank(m.replacementDigest)
    && m.commitWatermark > 0
  }

  predicate ValidChunk(c: RecoveryChunk) {
    && !Blank(c.recoveryId)
    && c.targetStateVersion > 0
    && ValidRecoveryBackends(c.backends)
    && c.encodedBytes > 0
    && !Blank(c.digest)
    && !Blank(c.payloadFragment)
  }

  predicate ValidCatchUp(p: Protocols, c: RecoveryCatchUp) {
    !Blank(c.recoveryId) && c.targetStateVersion > 0 && ValidateUpdate(p, c.update).Ok?
  }

  predicate ValidCommit(c: RecoveryCommit) {
    && !Blank(c.recoveryId)
    && c.targetStateVersion > 0
    && ValidRecoveryBackends(c.backends)
    && !Blank(c.replacementDigest)
    && c.commitWatermark > 0
  }
}
