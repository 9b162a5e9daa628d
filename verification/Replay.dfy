/**
 The replay client's decisions: the checkpoint, the continuity check on each entry, building
 one batch, and what an empty poll means. Transport, decoding libraries and hashing enter
 as the functions of a `Codec`.
 */
module Replay {
  import opened Wrappers
  import opened Wire
  import opened Contracts
  import opened EntryIds

  /** One validated Redis entry; `scope` is its parsed backend scope. */
  datatype StreamEntry = StreamEntry(
    chainId: u64,
    streamId: string,
    messageSeq: u64,
    stateVersion: u64,
    snapshotId: Option<string>,
    scope: set<Backend>,
    publishedAtMs: u64,
    payloadJson: string)

  datatype StreamMessage = StreamMessage(entryId: string, entry: StreamEntry)

  datatype Codec = Codec(
    protocols: Protocols,
    entryFields: string -> Option<StreamEntry>,
    envelope: string -> Option<Envelope>,
    replacement: string -> Option<seq<Envelope>>,
    digest: string -> string,
    byteLength: string -> nat,
    entrySize: (string, Option<u64>, StreamEntry) -> Option<u64>,
    rawUpdate: (Backend, seq<ProtocolMessage>) -> Option<Option<StoreUpdate>>,
    rawSnapshot: (Backend, seq<ProtocolMessage>) -> Option<Option<StoreUpdate>>,
    rawFragmentsAgree: seq<ProtocolMessage> -> bool,
    mergeUpdates: (StoreUpdate, StoreUpdate) -> StoreUpdate)

  /** A decoded update for one backend's store. */
  datatype StoreUpdate = StoreUpdate(
    block: u64,
    states: map<string, string>,
    newPairs: map<string, Component>,
    removedPairs: map<string, Component>)

  // Entry validation, part of decoding an entry's fields.

  /** The backends a payload speaks for; None for payloads that cannot be on the stream. */
  function PayloadScope(payload: Payload): Option<seq<Backend>> {
    match payload
    case Update(update) => Some(UpdateBackends(update))
    case Heartbeat(_, _, heads) => Some(Heads(heads))
    case Progress(_, _, backends, _) => Some(backends)
    case Start(manifest) => Some(manifest.backends)
    case Chunk(chunk) => Some(chunk.backends)
    case CatchUp(catchUp) => Some(UpdateBackends(catchUp.update))
    case Commit(commit) => Some(commit.backends)
    case _ => None
  }

  predicate PayloadMatchesEntry(p: Protocols, entry: StreamEntry, payload: Payload) {
    match payload
    case Update(_) => true
    case Heartbeat(chainId, snapshotId, _) => entry.snapshotId == Some(snapshotId) && entry.chainId == chainId
    case Progress(chainId, snapshotId, _, _) => entry.snapshotId == Some(snapshotId) && entry.chainId == chainId
    case Start(manifest) => ValidManifest(manifest) && manifest.targetStateVersion == entry.stateVersion
    case Chunk(chunk) => ValidChunk(chunk) && chunk.targetStateVersion == entry.stateVersion
    case CatchUp(catchUp) => ValidCatchUp(p, catchUp) && catchUp.targetStateVersion == entry.stateVersion
    case Commit(commit) => ValidCommit(commit) && commit.targetStateVersion == entry.stateVersion
    case _ => false
  }

  predicate ValidEntry(codec: Codec, entry: StreamEntry) {
    && !Blank(entry.streamId)
    && !Blank(entry.payloadJson)
    && entry.messageSeq != 0
    && entry.scope != {}
    && (entry.snapshotId.Some? ==> !Blank(entry.snapshotId.value))
    && match codec.envelope(entry.payloadJson)
       case None => false
       case Some(e) =>
         && e.streamId == entry.streamId
         && e.messageSeq == entry.messageSeq
         && PayloadMatchesEntry(codec.protocols, entry, e.payload)
         && match PayloadScope(e.payload)
            case None => false
            case Some(backends) => ValidateUnique(backends).Ok? && BackendSet(backends) == entry.scope
  }

  /** Reading one stream record's fields: parsed, then validated. */
  function DecodeEntry(codec: Codec, fields: string): Result<StreamEntry, ReplayError> {
    match codec.entryFields(fields)
    case Some(entry) => if ValidEntry(codec, entry) then Ok(entry) else Err(RedisDecode)
    case None => Err(RedisDecode)
  }

  datatype ReplayError = RedisGap | RedisDecode | RedisRead | RedisTransport

  datatype Checkpoint = Checkpoint(boundary: Boundary, entryId: string, lastSeq: u64, chainId: u64)

  function NewCheckpoint(boundary: Boundary, chainId: u64): Checkpoint {
    Checkpoint(boundary, PrintEntryId(boundary.generation, boundary.exclusiveSeq),
               boundary.exclusiveSeq, chainId)
  }

  /** The checkpoint names the entry with its own generation and sequence number. */
  predicate Printed(c: Checkpoint) {
    c.entryId == PrintEntryId(c.boundary.generation, c.lastSeq)
  }

  function EnsureNext(c: Checkpoint, m: StreamMessage): Result<Unit, ReplayError> {
    if m.entry.streamId != c.boundary.streamId then Err(RedisGap)
    else if m.entry.chainId != c.chainId then Err(RedisGap)
    else if m.entry.messageSeq <= c.lastSeq then Err(RedisGap)
    else
      match CheckedSucc(c.lastSeq)
      case None => Err(RedisGap)
      case Some(expected) =>
        if m.entry.messageSeq != expected then Err(RedisGap)
        else if m.entryId != PrintEntryId(c.boundary.generation, expected) then Err(RedisGap)
        else if m.entry.snapshotId.Some? && m.entry.snapshotId.value != c.boundary.snapshotId then Err(RedisGap)
        else Ok(Unit)
  }

  /** Exactly the next entry of the same stream, chain, snapshot and generation passes. */
  lemma NextAcceptedExactly(c: Checkpoint, m: StreamMessage)
    ensures EnsureNext(c, m).Ok? <==>
      && m.entry.messageSeq == c.lastSeq + 1
      && m.entryId == PrintEntryId(c.boundary.generation, m.entry.messageSeq)
      && m.entry.streamId == c.boundary.streamId && m.entry.chainId == c.chainId
      && (m.entry.snapshotId.Some? ==> m.entry.snapshotId.value == c.boundary.snapshotId)
  {
  }

  function AfterApplied(c: Checkpoint, m: StreamMessage): Checkpoint {
    c.(entryId := m.entryId, lastSeq := m.entry.messageSeq)
  }

  datatype ReplayMessage = ReplayMessage(
    entryId: string, entry: StreamEntry, envelope: Envelope, checkpointAfter: Checkpoint)

  function BuildOne(codec: Codec, c: Checkpoint, m: StreamMessage): Result<ReplayMessage, ReplayError> {
    match codec.envelope(m.entry.payloadJson)
    case None => Err(RedisDecode)
    case Some(envelope) =>
      var _ :- EnsureNext(c, m);
      Ok(ReplayMessage(m.entryId, m.entry, envelope, AfterApplied(c, m)))
  }

  function BuildBatch(codec: Codec, c: Checkpoint, ms: seq<StreamMessage>): Result<seq<ReplayMessage>, ReplayError>
    decreases |ms|
  {
    if ms == [] then Ok([])
    else
      var item :- BuildOne(codec, c, ms[0]);
      var rest :- BuildBatch(codec, item.checkpointAfter, ms[1..]);
      Ok([item] + rest)
  }

  /** `ReplayBatch::checkpoint_after`, falling back to the checkpoint the batch began from. */
  function CheckpointAfter(c: Checkpoint, items: seq<ReplayMessage>): Checkpoint {
    if items == [] then c else items[|items| - 1].checkpointAfter
  }

  method BuildReplayBatch(codec: Codec, checkpoint: Checkpoint, messages: seq<StreamMessage>)
    returns (r: Result<seq<ReplayMessage>, ReplayError>)
    ensures r == BuildBatch(codec, checkpoint, messages)
  {
    var items: seq<ReplayMessage> := [];
    var next := checkpoint;
    assert messages[0..] == messages;
    PrefixedByNothing(BuildBatch(codec, checkpoint, messages));
    for i := 0 to |messages|
      invariant BuildBatch(codec, checkpoint, messages) == Prefixed(items, BuildBatch(codec, next, messages[i..]))
    {
      ghost var rest := messages[i..];
      assert rest[0] == messages[i] && rest[1..] == messages[i + 1..];
      var envelope := codec.envelope(messages[i].entry.payloadJson);
      if envelope.None? {
        return Err(RedisDecode);
      }
      var _ :- EnsureNext(next, messages[i]);
      var after := AfterApplied(next, messages[i]);
      var item := ReplayMessage(messages[i].entryId, messages[i].entry, envelope.value, after);
      assert BuildOne(codec, next, messages[i]) == Ok(item);
      PrefixedInTurn(items, [item], BuildBatch(codec, after, messages[i + 1..]));
      items := items + [item];
      next := after;
    }
    assert messages[|messages|..] == [];
    assert items + [] == items;
    return Ok(items);
  }

  /**
   Building from `a + b` is building `a`, then `b` from `a`'s last checkpoint: it succeeds
   exactly when both do, with the items of both in order, and fails as the first that fails.
   */
  lemma {:induction false} BatchesCompose(codec: Codec, c: Checkpoint, a: seq<StreamMessage>, b: seq<StreamMessage>)
    ensures BuildBatch(codec, c, a + b) ==
      match BuildBatch(codec, c, a) {
        case Err(e) => Err(e)
        case Ok(first) => Prefixed(first, BuildBatch(codec, CheckpointAfter(c, first), b))
      }
    decreases |a|
  {
    if a == [] {
      assert a + b == b;
      PrefixedByNothing(BuildBatch(codec, c, b));
    } else {
      assert (a + b)[1..] == a[1..] + b;
      if BuildOne(codec, c, a[0]).Ok? {
        var item := BuildOne(codec, c, a[0]).value;
        BatchesCompose(codec, item.checkpointAfter, a[1..], b);
        if BuildBatch(codec, item.checkpointAfter, a[1..]).Ok? {
          var first := BuildBatch(codec, item.checkpointAfter, a[1..]).value;
          assert CheckpointAfter(c, [item] + first) == CheckpointAfter(item.checkpointAfter, first);
          PrefixedInTurn([item], first, BuildBatch(codec, CheckpointAfter(item.checkpointAfter, first), b));
        }
      }
    }
  }

  /** `items` continue `c` with no skip, repeat or reorder, all of one stream and generation. */
  ghost predicate Contiguous(c: Checkpoint, items: seq<ReplayMessage>) {
    forall i :: 0 <= i < |items| ==>
      && items[i].entry.messageSeq == c.lastSeq + 1 + i
      && items[i].entry.streamId == c.boundary.streamId
      && items[i].entry.chainId == c.chainId
      && items[i].entryId == PrintEntryId(c.boundary.generation, items[i].entry.messageSeq)
      && (items[i].entry.snapshotId.Some? ==> items[i].entry.snapshotId.value == c.boundary.snapshotId)
      && items[i].checkpointAfter
           == Checkpoint(c.boundary, items[i].entryId, items[i].entry.messageSeq, c.chainId)
  }

  lemma {:induction false} BuiltBatchIsContiguous(codec: Codec, c: Checkpoint, ms: seq<StreamMessage>)
    requires BuildBatch(codec, c, ms).Ok?
    ensures var items := BuildBatch(codec, c, ms).value;
      && |items| == |ms|
      && Contiguous(c, items)
      && forall i :: 0 <= i < |ms| ==>
           && items[i].entry == ms[i].entry
           && codec.envelope(ms[i].entry.payloadJson) == Some(items[i].envelope)
    decreases |ms|
  {
    if ms != [] {
      var item := BuildOne(codec, c, ms[0]).value;
      BuiltBatchIsContiguous(codec, item.checkpointAfter, ms[1..]);
      var items := BuildBatch(codec, c, ms).value;
      assert forall i :: 0 < i < |items| ==>
        items[i] == BuildBatch(codec, item.checkpointAfter, ms[1..]).value[i - 1] && ms[i] == ms[1..][i - 1];
    }
  }

  // The empty poll.

  datatype StreamInfo = StreamInfo(
    lastGenerated: string, first: Option<string>, last: Option<string>)

  datatype EmptyPoll = CaughtUp | Pending

  function ParseOrGap(id: string): Result<EntryId, ReplayError> {
    match ParseEntryId(id)
    case Some(parts) => Ok(parts)
    case None => Err(RedisGap)
  }

  /** The empty poll's decision once every id is read. */
  function DecideEmptyPoll(checkpoint: EntryId, generated: EntryId, expected: Option<EntryId>, first: Option<EntryId>,
                           last: Option<EntryId>): Result<EmptyPoll, ReplayError>
  {
    if generated.Less(checkpoint) then Err(RedisGap)
    else if generated == checkpoint then Ok(CaughtUp)
    else if expected.None? || first.None? || last.None? then Err(RedisGap)
    else if expected.value.Less(first.value) then Err(RedisGap)
    else if last.value.AtMost(checkpoint) then Err(RedisGap)
    else Ok(Pending)
  }

  function EmptyPollAction(c: Checkpoint, info: Option<StreamInfo>): Result<EmptyPoll, ReplayError> {
    match info
    case None => if c.lastSeq == 0 then Ok(CaughtUp) else Err(RedisGap)
    case Some(stream) =>
      var checkpointId :- ParseOrGap(c.entryId);
      var generated :- ParseOrGap(stream.lastGenerated);
      if generated.Less(checkpointId) then Err(RedisGap)
      else if generated == checkpointId then Ok(CaughtUp)
      else
        match CheckedSucc(c.lastSeq)
        case None => Err(RedisGap)
        case Some(expected) =>
          var expectedId :- ParseOrGap(PrintEntryId(c.boundary.generation, expected));
          if stream.first.None? || stream.last.None? then Err(RedisGap)
          else
            var first :- ParseOrGap(stream.first.value);
            if expectedId.Less(first) then Err(RedisGap)
            else
              var last :- ParseOrGap(stream.last.value);
              if last.AtMost(checkpointId) then Err(RedisGap) else Ok(Pending)
  }

  lemma ReadIdsDecide(c: Checkpoint, info: StreamInfo, checkpoint: EntryId, generated: EntryId, expected: EntryId,
                      first: Option<EntryId>, last: Option<EntryId>)
    requires ParseEntryId(c.entryId) == Some(checkpoint)
    requires ParseEntryId(info.lastGenerated) == Some(generated)
    requires c.lastSeq < U64_MAX ==>
      ParseEntryId(PrintEntryId(c.boundary.generation, c.lastSeq + 1)) == Some(expected)
    requires info.first.Some? <==> first.Some?
    requires info.last.Some? <==> last.Some?
    requires first.Some? ==> ParseEntryId(info.first.value) == first
    requires last.Some? ==> ParseEntryId(info.last.value) == last
    ensures EmptyPollAction(c, Some(info)) ==
      DecideEmptyPoll(checkpoint, generated, if c.lastSeq < U64_MAX then Some(expected) else None, first, last)
  {
  }

  // What a decoded entry is known to be.

  /** The payload speaks for the backend. */
  ghost predicate SpeaksFor(payload: Payload, b: Backend) {
    match payload
    case Update(parts) => exists i :: 0 <= i < |parts| && parts[i].backend == b
    case Heartbeat(_, _, heads) => exists i :: 0 <= i < |heads| && heads[i].backend == b
    case Progress(_, _, backends, _) => b in backends
    case Start(manifest) => b in manifest.backends
    case Chunk(chunk) => b in chunk.backends
    case CatchUp(catchUp) => exists i :: 0 <= i < |catchUp.update| && catchUp.update[i].backend == b
    case Commit(commit) => b in commit.backends
    case _ => false
  }

  /** The version a recovery message aims at. */
  function TargetOf(payload: Payload): Option<u64> {
    match payload
    case Start(manifest) => Some(manifest.targetStateVersion)
    case Chunk(chunk) => Some(chunk.targetStateVersion)
    case CatchUp(catchUp) => Some(catchUp.targetStateVersion)
    case Commit(commit) => Some(commit.targetStateVersion)
    case _ => None
  }

  /**
   A decoded entry repeats its envelope's stream and number, its scope is exactly the backends
   the payload speaks for, and its version, chain and snapshot are those the payload names.
   */
  lemma DecodedEntryAgrees(codec: Codec, fields: string)
    requires DecodeEntry(codec, fields).Ok?
    ensures var entry := DecodeEntry(codec, fields).value;
      && codec.entryFields(fields) == Some(entry)
      && codec.envelope(entry.payloadJson).Some?
      && var e := codec.envelope(entry.payloadJson).value;
         && e.streamId == entry.streamId && e.messageSeq == entry.messageSeq > 0
         && (e.payload.Ordinary() || e.payload.Recovery())
         && entry.scope != {} && (forall b :: b in entry.scope <==> SpeaksFor(e.payload, b))
         && (TargetOf(e.payload).Some? ==> TargetOf(e.payload) == Some(entry.stateVersion))
         && (e.payload.Heartbeat? || e.payload.Progress? ==>
               entry.chainId == e.payload.chainId && entry.snapshotId == Some(e.payload.snapshotId))
         && !Blank(entry.streamId) && (entry.snapshotId.Some? ==> !Blank(entry.snapshotId.value))
  {
    var entry := DecodeEntry(codec, fields).value;
    var e := codec.envelope(entry.payloadJson).value;
    forall b ensures b in entry.scope <==> SpeaksFor(e.payload, b) {
      ScopeNames(e.payload, b);
    }
  }

  lemma ScopeNames(payload: Payload, b: Backend)
    requires PayloadScope(payload).Some?
    ensures b in BackendSet(PayloadScope(payload).value) <==> SpeaksFor(payload, b)
  {
    var bs := PayloadScope(payload).value;
    assert b in BackendSet(bs) <==> exists i :: 0 <= i < |bs| && bs[i] == b;
  }
}
