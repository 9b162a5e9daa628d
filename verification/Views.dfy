/**
 The content of one backend seen at one pool id: what updates, snapshots and catch-ups make
 of it, folded over the messages alone.
 */
module Views {
  import opened Wrappers
  import opened Wire
  import opened Contracts
  import opened Completeness
  import opened Trackers
  import opened Replay
  import opened StateStores
  import opened Subscription
  import opened Pools

  datatype PoolView = PoolView(block: u64, pool: Option<Pool>)

  const BLANK := PoolView(0, None)

  function View(c: Content, id: string): PoolView {
    PoolView(c.block, Lookup(c.pools, id))
  }

  // An update names each backend at most once.

  function PartFor(parts: seq<UpdatePartition>, b: Backend): Option<UpdatePartition> {
    if parts == [] then None
    else if parts[0].backend == b then Some(parts[0])
    else PartFor(parts[1..], b)
  }

  function SnapshotPartFor(parts: seq<SnapshotPartition>, b: Backend): Option<SnapshotPartition> {
    if parts == [] then None
    else if parts[0].backend == b then Some(parts[0])
    else SnapshotPartFor(parts[1..], b)
  }

  /** The partition holds decoded state, or raw messages that decode to some. */
  predicate Decodes(codec: Codec, b: Backend, part: UpdatePartition) {
    part.messages == [] || (codec.rawUpdate(b, part.messages).Some? && codec.rawUpdate(b, part.messages).value.Some?)
  }

  function MentionIn(codec: Codec, b: Backend, part: UpdatePartition, id: string): Mention
    requires Decodes(codec, b, part)
  {
    if part.messages == [] then MentionOf(part, id)
    else DecodedMention(codec.rawUpdate(b, part.messages).value.value, id)
  }

  /** The update carries state for the backend. */
  predicate Carries(codec: Codec, b: Backend, parts: seq<UpdatePartition>) {
    PartFor(parts, b).Some? && Decodes(codec, b, PartFor(parts, b).value)
  }

  function UpdateView(codec: Codec, b: Backend, id: string, v: PoolView, parts: seq<UpdatePartition>): PoolView {
    if !Carries(codec, b, parts) then v
    else
      var part := PartFor(parts, b).value;
      PoolView(part.blockNumber, PoolAfter(codec.protocols, v.pool, MentionIn(codec, b, part, id)))
  }

  lemma {:induction false} NoPartDecoded(codec: Codec, b: Backend, parts: seq<UpdatePartition>, acc: Decoded)
    requires forall i :: 0 <= i < |parts| ==> parts[i].backend != b
    ensures DecodeLive(codec, b, parts, acc) == Ok(acc)
    ensures PartFor(parts, b) == None
    decreases |parts|
  {
    if parts != [] {
      NoPartDecoded(codec, b, parts[1..], acc);
    }
  }

  ghost predicate OncePerBackend(parts: seq<UpdatePartition>) {
    forall i, j :: 0 <= i < j < |parts| ==> parts[i].backend != parts[j].backend
  }

  /** What the backend's one partition decodes to. */
  ghost predicate DecodedFrom(codec: Codec, b: Backend, parts: seq<UpdatePartition>, d: Decoded) {
    var part := PartFor(parts, b);
    && (part.None? ==> d == Decoded(None, None, None))
    && (part.Some? ==> d.block == Some(part.value.blockNumber))
    && (part.Some? ==>
          d.complete == (if b != Native then None
                         else CompleteBlock(part.value.blockNumber, part.value.messages, part.value.syncStatuses)))
    && (part.Some? && b == Rfq ==> part.value.messages == [])
    && (d.combined.Some? <==> Carries(codec, b, parts))
    && (d.combined.Some? ==>
          d.combined.value == if part.value.messages == [] then LiveUpdate(part.value)
                              else codec.rawUpdate(b, part.value.messages).value.value)
  }

  /** The backend's partition holds decoded state, or raw messages the decoder can read, which RFQ never sends. */
  predicate Readable(codec: Codec, b: Backend, parts: seq<UpdatePartition>) {
    var part := PartFor(parts, b);
    part.Some? && part.value.messages != [] ==> b != Rfq && codec.rawUpdate(b, part.value.messages).Some?
  }

  lemma {:induction false} DecodedOnce(codec: Codec, b: Backend, parts: seq<UpdatePartition>)
    requires OncePerBackend(parts)
    ensures DecodeLive(codec, b, parts, Decoded(None, None, None)).Ok? <==> Readable(codec, b, parts)
    ensures Readable(codec, b, parts) ==>
      DecodedFrom(codec, b, parts, DecodeLive(codec, b, parts, Decoded(None, None, None)).value)
    decreases |parts|
  {
    if parts != [] {
      assert forall i :: 0 < i < |parts| ==> parts[1..][i - 1] == parts[i];
      if parts[0].backend != b {
        DecodedOnce(codec, b, parts[1..]);
      } else if Readable(codec, b, parts) {
        var update := DecodePartition(codec, b, parts[0]).value;
        var whole := if b == Native
                     then CompleteBlock(parts[0].blockNumber, parts[0].messages, parts[0].syncStatuses) else None;
        NoPartDecoded(codec, b, parts[1..],
                      Decoded(update, Some(parts[0].blockNumber), if whole.Some? then OptionMax(None, whole.value) else None));
      }
    }
  }

  /** The store after an update: republished when the update carries state, else untouched. */
  ghost predicate Republished(before: Store, carried: bool, version: u64, after: Store) {
    if !carried then after == before
    else after.content.version == version && (after.requestsAllowed <==> after.content.pools != map[])
  }

  lemma AppliedView(codec: Codec, p: Processor, parts: seq<UpdatePartition>, version: Option<u64>, id: string)
    requires OncePerBackend(parts) && ApplyLive(codec, p, parts, version).done.Ok?
    ensures var after := ApplyLive(codec, p, parts, version).processor;
      && View(after.store.content, id) == UpdateView(codec, p.backend, id, View(p.store.content, id), parts)
      && Republished(p.store, Carries(codec, p.backend, parts),
                     if version.Some? then version.value else SaturatingSucc(p.store.content.version), after.store)
      && after == p.(store := after.store, head := after.head)
  {
    DecodedOnce(codec, p.backend, parts);
    var d := DecodeLive(codec, p.backend, parts, Decoded(None, None, None)).value;
    if Carries(codec, p.backend, parts) {
      var part := PartFor(parts, p.backend).value;
      LiveUpdateMentions(part, id);
      UpdatedPool(codec.protocols, p.store.content.pools, d.combined.value.(block := d.block.value), id);
    }
  }

  // Catch-ups, in order.

  function CatchUpsView(codec: Codec, b: Backend, id: string, v: PoolView, catchUps: seq<RecoveryCatchUp>): PoolView
    decreases |catchUps|
  {
    if catchUps == [] then v
    else CatchUpsView(codec, b, id, UpdateView(codec, b, id, v, catchUps[0].update), catchUps[1..])
  }

  ghost predicate CatchUpsOncePerBackend(catchUps: seq<RecoveryCatchUp>) {
    forall i :: 0 <= i < |catchUps| ==> OncePerBackend(catchUps[i].update)
  }

  lemma {:induction false} CaughtUpView(codec: Codec, p: Processor, catchUps: seq<RecoveryCatchUp>, id: string)
    requires CatchUpsOncePerBackend(catchUps) && ReplayCatchUps(codec, p, catchUps).done.Ok?
    ensures var after := ReplayCatchUps(codec, p, catchUps).processor;
      View(after.store.content, id) == CatchUpsView(codec, p.backend, id, View(p.store.content, id), catchUps)
    decreases |catchUps|
  {
    if catchUps != [] {
      AppliedView(codec, p, catchUps[0].update, None, id);
      assert forall i :: 0 < i < |catchUps| ==> catchUps[1..][i - 1] == catchUps[i];
      CaughtUpView(codec, ApplyLive(codec, p, catchUps[0].update, None).processor, catchUps[1..], id);
    }
  }

  // A snapshot, envelope by envelope.

  function ChunkView(codec: Codec, b: Backend, id: string, v: PoolView, parts: seq<SnapshotPartition>): PoolView {
    match SnapshotPartFor(parts, b)
    case None => v
    case Some(part) =>
      if part.messages != [] then v
      else PoolView(part.blockNumber, PoolAfter(codec.protocols, v.pool, SnapshotMention(part, id)))
  }

  /** The reassembled raw messages count as one more partition. */
  function RawView(codec: Codec, b: Backend, id: string, v: PoolView, raw: seq<ProtocolMessage>): PoolView {
    match codec.rawSnapshot(b, raw)
    case Some(Some(u)) => PoolView(u.block, PoolAfter(codec.protocols, v.pool, DecodedMention(u, id)))
    case _ => v
  }

  function EnvelopeView(codec: Codec, b: Backend, id: string, v: PoolView, raw: seq<ProtocolMessage>, e: Envelope): PoolView {
    match e.payload
    case SnapshotChunk(_, _, parts) => ChunkView(codec, b, id, v, parts)
    case SnapshotEnd(_) => RawView(codec, b, id, v, raw)
    case Update(parts) => UpdateView(codec, b, id, v, parts)
    case _ => v
  }

  /** The raw messages buffered for the backend: those of all chunks since the snapshot began. */
  function RawAfter(b: Backend, raw: seq<ProtocolMessage>, e: Envelope): seq<ProtocolMessage> {
    match e.payload
    case SnapshotStart(_, _, _, _) => []
    case SnapshotChunk(_, _, parts) =>
      raw + if SnapshotPartFor(parts, b).Some? then SnapshotPartFor(parts, b).value.messages else []
    case SnapshotEnd(_) => []
    case _ => raw
  }

  function SnapshotView(codec: Codec, b: Backend, id: string, v: PoolView, raw: seq<ProtocolMessage>,
                        snapshot: seq<Envelope>): PoolView
    decreases |snapshot|
  {
    if snapshot == [] then v
    else
      var e := snapshot[0];
      SnapshotView(codec, b, id, EnvelopeView(codec, b, id, v, raw, e), RawAfter(b, raw, e), snapshot[1..])
  }

  /** Raw messages are buffered in order, as long as every fragment agrees with those before it. */
  lemma {:induction false} PushedRaw(codec: Codec, p: Processor, messages: seq<ProtocolMessage>)
    ensures PushRaw(codec, p, messages).done.Ok? <==>
      forall k :: 0 < k <= |messages| ==> codec.rawFragmentsAgree(p.raw + messages[..k])
    ensures PushRaw(codec, p, messages).done.Ok? ==>
      PushRaw(codec, p, messages).processor == p.(raw := p.raw + messages)
    decreases |messages|
  {
    if messages == [] {
      assert p.raw + messages == p.raw;
    } else {
      var rest, raw := messages[1..], p.raw + [messages[0]];
      PushedRaw(codec, p.(raw := raw), rest);
      assert messages[..1] == [messages[0]];
      assert raw + rest == p.raw + messages;
      assert forall k :: 0 < k <= |rest| ==> raw + rest[..k] == p.raw + messages[..k + 1];
      assert forall k :: 1 < k <= |messages| ==> p.raw + messages[..k] == raw + rest[..k - 1];
    }
  }

  lemma {:induction false} NoPartBuffered(codec: Codec, p: Processor, parts: seq<SnapshotPartition>)
    requires forall i :: 0 <= i < |parts| ==> parts[i].backend != p.backend
    ensures BufferPartitions(codec, p, parts).processor == p && SnapshotPartFor(parts, p.backend) == None
    decreases |parts|
  {
    if parts != [] {
      NoPartBuffered(codec, p, parts[1..]);
    }
  }

  ghost predicate ChunkOncePerBackend(parts: seq<SnapshotPartition>) {
    forall i, j :: 0 <= i < j < |parts| ==> parts[i].backend != parts[j].backend
  }

  /** Only the store and the raw buffer of the processor moved, and its view as told. */
  ghost predicate Buffered(codec: Codec, p: Processor, q: Processor, id: string, v: PoolView, raw: seq<ProtocolMessage>) {
    q == p.(store := q.store, raw := raw) && View(q.store.content, id) == v
  }

  lemma PartBuffered(codec: Codec, p: Processor, part: SnapshotPartition, id: string)
    requires BufferPartition(codec, p, part).done.Ok?
    ensures p.backend == Rfq ==> part.messages == []
    ensures var v := View(p.store.content, id);
      Buffered(codec, p, BufferPartition(codec, p, part).processor, id,
               if part.messages != [] then v
               else PoolView(part.blockNumber, PoolAfter(codec.protocols, v.pool, SnapshotMention(part, id))),
               p.raw + part.messages)
  {
    if part.messages == [] {
      SnapshotUpdateMentions(part, id);
      UpdatedPool(codec.protocols, p.store.content.pools, SnapshotUpdate(part), id);
      assert p.raw + part.messages == p.raw;
    } else {
      PushedRaw(codec, p, part.messages);
    }
  }

  lemma {:induction false} ChunkBuffered(codec: Codec, p: Processor, parts: seq<SnapshotPartition>, id: string)
    requires ChunkOncePerBackend(parts) && BufferPartitions(codec, p, parts).done.Ok?
    ensures var part := SnapshotPartFor(parts, p.backend);
      Buffered(codec, p, BufferPartitions(codec, p, parts).processor, id,
               ChunkView(codec, p.backend, id, View(p.store.content, id), parts),
               p.raw + if part.Some? then part.value.messages else [])
    decreases |parts|
  {
    if parts == [] {
      assert p.raw + [] == p.raw;
    } else {
      assert forall i :: 0 < i < |parts| ==> parts[1..][i - 1] == parts[i];
      if parts[0].backend != p.backend {
        ChunkBuffered(codec, p, parts[1..], id);
      } else {
        PartBuffered(codec, p, parts[0], id);
        NoPartBuffered(codec, BufferPartition(codec, p, parts[0]).processor, parts[1..]);
      }
    }
  }

  lemma FinishedView(codec: Codec, p: Processor, id: string)
    requires FinishSnapshot(codec, p).done.Ok?
    ensures var q := FinishSnapshot(codec, p).processor;
      && Buffered(codec, p, q, id, RawView(codec, p.backend, id, View(p.store.content, id), p.raw), [])
      && Some(q.store.content.version) == p.bootVersion
      && (q.store.requestsAllowed <==> q.store.content.pools != map[])
  {
    var update := codec.rawSnapshot(p.backend, p.raw).value;
    if update.Some? {
      UpdatedPool(codec.protocols, p.store.content.pools, update.value, id);
    }
  }

  /** Everything of the processor that an observed envelope moves, its head and tracker aside. */
  ghost predicate Observes(codec: Codec, p: Processor, q: Processor, e: Envelope, id: string) {
    && q == p.(tracker := q.tracker, store := q.store, raw := q.raw, head := q.head)
    && q.raw == RawAfter(p.backend, p.raw, e)
    && View(q.store.content, id) == EnvelopeView(codec, p.backend, id, View(p.store.content, id), p.raw, e)
    && (e.payload.SnapshotEnd? ==> Some(q.store.content.version) == p.bootVersion)
  }

  /** A snapshot is only followed when it is of the expected chain and includes the backend. */
  lemma StartNamesBackend(codec: Codec, chainId: u64, p: Processor, e: Envelope, version: Option<u64>)
    requires e.payload.SnapshotStart? && ObserveEnvelope(codec, chainId, p, e, version).done.Ok?
    ensures e.payload.chainId == chainId && p.backend in e.payload.backends
    ensures ObserveEnvelope(codec, chainId, p, e, version).processor.raw == []
  {
  }

  lemma ChunkObserved(codec: Codec, chainId: u64, p: Processor, e: Envelope, id: string)
    requires e.payload.SnapshotChunk? && ObserveEnvelope(codec, chainId, p, e, None).done.Ok?
    ensures Observes(codec, p, ObserveEnvelope(codec, chainId, p, e, None).processor, e, id)
  {
    UniqueMeansDistinct(SnapshotBackends(e.payload.partitions), {});
    var seen := p.(tracker := Observe(codec.protocols, p.tracker, e).value.0);
    ChunkBuffered(codec, seen, e.payload.partitions, id);
  }

  lemma UpdateObserved(codec: Codec, chainId: u64, p: Processor, e: Envelope, version: Option<u64>)
    requires e.payload.Update? && ObserveEnvelope(codec, chainId, p, e, version).done.Ok?
    ensures OncePerBackend(e.payload.update)
    ensures var seen := p.(tracker := ObserveEnvelope(codec, chainId, p, e, version).processor.tracker);
      ApplyLive(codec, seen, e.payload.update, version) == ObserveEnvelope(codec, chainId, p, e, version)
  {
    ValidateUpdateExact(codec.protocols, e.payload.update);
  }

  lemma ObservedView(codec: Codec, chainId: u64, p: Processor, e: Envelope, id: string)
    requires ObserveEnvelope(codec, chainId, p, e, None).done.Ok?
    ensures Observes(codec, p, ObserveEnvelope(codec, chainId, p, e, None).processor, e, id)
  {
    match e.payload {
      case SnapshotChunk(_, _, _) => ChunkObserved(codec, chainId, p, e, id);
      case SnapshotEnd(_) =>
        FinishedView(codec, p.(tracker := Observe(codec.protocols, p.tracker, e).value.0), id);
      case Update(parts) =>
        UpdateObserved(codec, chainId, p, e, None);
        AppliedView(codec, p.(tracker := Observe(codec.protocols, p.tracker, e).value.0), parts, None, id);
      case _ =>
    }
  }

  lemma {:induction false} ReplayedView(codec: Codec, chainId: u64, p: Processor, snapshot: seq<Envelope>, id: string)
    requires ReplaySnapshot(codec, chainId, p, snapshot).done.Ok?
    ensures var q := ReplaySnapshot(codec, chainId, p, snapshot).processor;
      && View(q.store.content, id) == SnapshotView(codec, p.backend, id, View(p.store.content, id), p.raw, snapshot)
      && q.backend == p.backend && q.bootVersion == p.bootVersion
    decreases |snapshot|
  {
    if snapshot != [] {
      ObservedView(codec, chainId, p, snapshot[0], id);
      ReplayedView(codec, chainId, ObserveEnvelope(codec, chainId, p, snapshot[0], None).processor, snapshot[1..], id);
    }
  }

  /** What a whole replacement and its catch-ups make of one pool id, starting from nothing. */
  function ReplacementView(codec: Codec, b: Backend, id: string, snapshot: seq<Envelope>, catchUps: seq<RecoveryCatchUp>)
    : PoolView
  {
    CatchUpsView(codec, b, id, SnapshotView(codec, b, id, BLANK, [], snapshot), catchUps)
  }

  lemma RebuiltView(codec: Codec, chainId: u64, p: Processor, version: u64, snapshot: seq<Envelope>,
                    catchUps: seq<RecoveryCatchUp>, id: string)
    requires CatchUpsOncePerBackend(catchUps) && Rebuild(codec, chainId, p, version, snapshot, catchUps).Ok?
    ensures View(Rebuild(codec, chainId, p, version, snapshot, catchUps).value.content, id)
         == ReplacementView(codec, p.backend, id, snapshot, catchUps)
  {
    ReplayedView(codec, chainId, RecoveryCopy(p, version), snapshot, id);
    CaughtUpView(codec, ReplaySnapshot(codec, chainId, RecoveryCopy(p, version), snapshot).processor, catchUps, id);
  }

  // What a list of catch-ups means for one pool.

  /** What the catch-up says about the id, silence included. */
  function SaidBy(codec: Codec, b: Backend, id: string, c: RecoveryCatchUp): Mention {
    if Carries(codec, b, c.update) then MentionIn(codec, b, PartFor(c.update, b).value, id) else SILENT
  }

  lemma {:induction false} SilentCatchUps(codec: Codec, b: Backend, id: string, v: PoolView, catchUps: seq<RecoveryCatchUp>)
    requires forall i :: 0 <= i < |catchUps| ==> SaidBy(codec, b, id, catchUps[i]) == SILENT
    ensures CatchUpsView(codec, b, id, v, catchUps).pool == v.pool
    decreases |catchUps|
  {
    if catchUps != [] {
      assert forall i :: 0 < i < |catchUps| ==> catchUps[1..][i - 1] == catchUps[i];
      SilentCatchUps(codec, b, id, UpdateView(codec, b, id, v, catchUps[0].update), catchUps[1..]);
    }
  }

  /** The last catch-up that says anything about the id decides its pool. */
  lemma {:induction false} LastCatchUpDecides(codec: Codec, b: Backend, id: string, v: PoolView,
                                              catchUps: seq<RecoveryCatchUp>, k: nat)
    requires k < |catchUps|
    requires forall i :: k < i < |catchUps| ==> SaidBy(codec, b, id, catchUps[i]) == SILENT
    ensures CatchUpsView(codec, b, id, v, catchUps).pool ==
      PoolAfter(codec.protocols, CatchUpsView(codec, b, id, v, catchUps[..k]).pool, SaidBy(codec, b, id, catchUps[k]))
    decreases k
  {
    var next := UpdateView(codec, b, id, v, catchUps[0].update);
    if k == 0 {
      assert catchUps[..0] == [];
      assert forall i :: 0 < i < |catchUps| ==> catchUps[1..][i - 1] == catchUps[i];
      SilentCatchUps(codec, b, id, next, catchUps[1..]);
    } else {
      assert forall i :: 0 < i < |catchUps| ==> catchUps[1..][i - 1] == catchUps[i];
      LastCatchUpDecides(codec, b, id, next, catchUps[1..], k - 1);
      assert catchUps[..k][1..] == catchUps[1..][..k - 1];
    }
  }

  /** The block after the catch-ups is that of the last one carrying state for the backend. */
  lemma {:induction false} LastCatchUpBlock(codec: Codec, b: Backend, id: string, v: PoolView,
                                            catchUps: seq<RecoveryCatchUp>, k: nat)
    requires k < |catchUps| && Carries(codec, b, catchUps[k].update)
    requires forall i :: k < i < |catchUps| ==> !Carries(codec, b, catchUps[i].update)
    ensures CatchUpsView(codec, b, id, v, catchUps).block == PartFor(catchUps[k].update, b).value.blockNumber
    decreases |catchUps|
  {
    assert forall i :: 0 < i < |catchUps| ==> catchUps[1..][i - 1] == catchUps[i];
    var next := UpdateView(codec, b, id, v, catchUps[0].update);
    if k > 0 {
      LastCatchUpBlock(codec, b, id, next, catchUps[1..], k - 1);
    } else {
      NoBlockAfter(codec, b, id, next, catchUps[1..]);
    }
  }

  lemma {:induction false} NoBlockAfter(codec: Codec, b: Backend, id: string, v: PoolView, catchUps: seq<RecoveryCatchUp>)
    requires forall i :: 0 <= i < |catchUps| ==> !Carries(codec, b, catchUps[i].update)
    ensures CatchUpsView(codec, b, id, v, catchUps) == v
    decreases |catchUps|
  {
    if catchUps != [] {
      assert forall i :: 0 < i < |catchUps| ==> catchUps[1..][i - 1] == catchUps[i];
      NoBlockAfter(codec, b, id, v, catchUps[1..]);
    }
  }
}
