/** The subscription as the object its replay loop mutates, message by message. */
module PreparedSubscriptions {
  import opened Wrappers
  import opened Wire
  import opened Contracts
  import opened Trackers
  import opened Replay
  import opened StateStores
  import opened Subscription
  import opened Batches

  class PreparedSubscription {
    const codec: Codec
    const chainId: u64
    const redisMaxlen: Option<u64>
    var processors: seq<Prepared>
    var boundary: Boundary
    var recovery: Option<Assembly>

    function Value(): Sub
      reads this
    {
      Sub(processors, boundary, chainId, recovery, redisMaxlen)
    }

    constructor (codec: Codec, prepared: Sub)
      ensures this.codec == codec && Value() == prepared
    {
      this.codec := codec;
      chainId, redisMaxlen := prepared.chainId, prepared.redisMaxlen;
      processors, boundary, recovery := prepared.processors, prepared.boundary, prepared.recovery;
    }

    /** Applies a batch in order; `checkpoint` moves only past messages that were applied. */
    method ApplyReplayBatch(start: Checkpoint, items: seq<ReplayMessage>) returns (checkpoint: Checkpoint, done: Done)
      modifies this
      ensures Batched(Value(), checkpoint, done) == ApplyBatch(codec, old(Value()), start, items)
    {
      checkpoint := start;
      assert items[0..] == items;
      for i := 0 to |items|
        invariant ApplyBatch(codec, old(Value()), start, items) == ApplyBatch(codec, Value(), checkpoint, items[i..])
      {
        assert items[i..][0] == items[i] && items[i..][1..] == items[i + 1..];
        done := ApplyMessage(items[i]);
        if done.Err? {
          return;
        }
        checkpoint := items[i].checkpointAfter;
        processors := MarkReplay(processors, checkpoint);
      }
      done := DONE;
    }

    method ApplyMessage(m: ReplayMessage) returns (done: Done)
      modifies this
      ensures Applied(Value(), done) == ApplyOne(codec, old(Value()), m)
    {
      if m.envelope.payload.Recovery() || recovery.Some? {
        match m.envelope.payload {
          case Start(manifest) => done := Begin(m.entry.messageSeq, manifest);
          case Chunk(chunk) => done := AcceptChunk(m.entry, chunk);
          case CatchUp(catchUp) => done := AcceptCatchUp(catchUp);
          case Commit(commit) =>
            if !ValidCommit(commit) {
              return Err(InvalidRecoveryMessage);
            }
            done := Publish(m.entry.messageSeq, commit);
          case _ => done := Err(OrdinaryInsideRecovery);
        }
      } else {
        done := ObserveAll(m);
      }
    }

    method ObserveAll(m: ReplayMessage) returns (done: Done)
      modifies this`processors
      ensures Swept(processors, done) == ObserveFrom(codec, chainId, old(processors), 0, m)
    {
      for i := 0 to |processors|
        invariant |processors| == |old(processors)|
        invariant ObserveFrom(codec, chainId, old(processors), 0, m) == ObserveFrom(codec, chainId, processors, i, m)
      {
        if m.entry.messageSeq > processors[i].boundary.exclusiveSeq {
          var one := ObserveDelta(codec, chainId, processors[i].processor, m.entry, m.envelope);
          processors := processors[i := processors[i].(processor := one.processor)];
          if one.done.Err? {
            return one.done;
          }
        }
      }
      return DONE;
    }

    method Begin(seqNo: u64, m: Manifest) returns (done: Done)
      modifies this
      ensures Applied(Value(), done) == ApplyStart(old(Value()), seqNo, m)
    {
      if !ValidManifest(m) {
        return Err(InvalidRecoveryMessage);
      }
      var expected := CommitSeq(seqNo, m);
      if expected > U64_MAX {
        return Err(WatermarkOverflow);
      }
      if expected != m.commitWatermark {
        return Err(WatermarkMismatch);
      }
      var existing := recovery;
      recovery := None;
      if existing.Some? && existing.value.manifest == m {
        return Err(RepeatedStart);
      }
      for i := 0 to |processors|
        invariant |processors| == |old(processors)| && recovery == None && boundary == old(boundary)
        invariant FenceFrom(old(processors), 0, m) == FenceFrom(processors, i, m)
      {
        var p := processors[i].processor;
        if p.backend in m.backends {
          if m.targetStateVersion <= p.store.content.version {
            return Err(TargetNotNewer);
          }
          processors := processors[i := processors[i].(processor := p.(store := Fence(p.store)))];
        }
      }
      recovery := Some(Assembly(m, map[], map[]));
      return DONE;
    }

    method AcceptChunk(entry: StreamEntry, c: RecoveryChunk) returns (done: Done)
      modifies this`recovery
      ensures Applied(Value(), done) == ApplyChunk(codec, old(Value()), entry, c)
    {
      if !ValidChunk(c) {
        return Err(InvalidRecoveryMessage);
      }
      if recovery.None? {
        return Err(BeforeStart);
      }
      var a := recovery.value;
      done := CheckChunk(codec, Value(), a, entry, c);
      if done.Ok? {
        recovery := Some(a.(chunks := a.chunks[c.chunkIndex := c]));
        done := DONE;
      }
    }

    method AcceptCatchUp(c: RecoveryCatchUp) returns (done: Done)
      modifies this`recovery
      ensures Applied(Value(), done) == ApplyCatchUp(codec, old(Value()), c)
    {
      if !ValidCatchUp(codec.protocols, c) {
        return Err(InvalidRecoveryMessage);
      }
      if recovery.None? {
        return Err(BeforeStart);
      }
      var a := recovery.value;
      done := CheckCatchUp(a, c);
      if done.Ok? {
        recovery := Some(a.(catchUps := a.catchUps[c.blockIndex := c]));
        done := DONE;
      }
    }

    method Publish(seqNo: u64, c: RecoveryCommit) returns (done: Done)
      modifies this
      ensures Applied(Value(), done) == CommitRecovery(codec, old(Value()), seqNo, c)
    {
      if recovery.None? {
        return Err(BeforeStart);
      }
      var before := Value();
      var a := recovery.value;
      recovery := None;
      var snapshot :- CheckCommit(codec, before, a, seqNo, c);
      var catchUps := ValuesInOrder(a.catchUps);
      var candidates :- RebuildAll(codec, before, a.manifest, snapshot, catchUps);
      done := SwapAll(seqNo, a.manifest, candidates, CommittedComplete(snapshot, catchUps));
    }

    method SwapAll(seqNo: u64, m: Manifest, candidates: seq<Option<Store>>, complete: Option<u64>) returns (done: Done)
      requires |candidates| == |processors|
      modifies this
      ensures Applied(Value(), done) == PublishCommit(old(Value()), seqNo, m, candidates, complete)
    {
      for i := 0 to |processors|
        invariant |processors| == |old(processors)| == |candidates|
        invariant recovery == old(recovery) && boundary == old(boundary)
        invariant PublishFrom(old(processors), 0, candidates, m.targetStateVersion, complete)
               == PublishFrom(processors, i, candidates, m.targetStateVersion, complete)
      {
        if candidates[i].Some? {
          var p := processors[i].processor;
          if m.targetStateVersion <= p.store.content.version {
            return Err(StaleStateVersion);
          }
          var content := candidates[i].value.content.(version := m.targetStateVersion);
          var swapped := p.(store := Published(content), head := CommittedHead(p, content.block, complete));
          processors := processors[i := processors[i].(processor := swapped)];
        }
      }
      ghost var published := processors;
      var next := CommitBoundary(boundary, seqNo, m.targetStateVersion);
      for i := 0 to |processors|
        invariant |processors| == |published|
        invariant recovery == old(recovery) && boundary == old(boundary)
        invariant AlignFrom(published, 0, next) == AlignFrom(processors, i, next)
      {
        var aligned := Align(processors[i].processor.tracker, next);
        if aligned.Err? {
          return Err(InvalidEnvelope(aligned.error));
        }
        processors := processors[i := Prepared(processors[i].processor.(tracker := aligned.value), next)];
      }
      boundary := next;
      return DONE;
    }
  }

  /** Rebuilds every named backend's candidate before any live store is touched. */
  method RebuildAll(codec: Codec, sub: Sub, m: Manifest, snapshot: seq<Envelope>, catchUps: seq<RecoveryCatchUp>)
    returns (r: Result<seq<Option<Store>>, ApplyError>)
    ensures r == CandidatesFrom(codec, sub, 0, m, snapshot, catchUps)
  {
    var candidates: seq<Option<Store>> := [];
    PrefixedByNothing(CandidatesFrom(codec, sub, 0, m, snapshot, catchUps));
    for i := 0 to |sub.processors|
      invariant |candidates| == i
      invariant CandidatesFrom(codec, sub, 0, m, snapshot, catchUps)
             == Prefixed(candidates, CandidatesFrom(codec, sub, i, m, snapshot, catchUps))
    {
      var p := sub.processors[i].processor;
      ghost var rest := CandidatesFrom(codec, sub, i + 1, m, snapshot, catchUps);
      if p.backend !in m.backends {
        PrefixedInTurn(candidates, [None], rest);
        candidates := candidates + [None];
      } else {
        var store :- RebuildOne(codec, sub.chainId, p, m.targetStateVersion, snapshot, catchUps);
        PrefixedInTurn(candidates, [Some(store)], rest);
        candidates := candidates + [Some(store)];
      }
    }
    assert candidates + [] == candidates;
    return Ok(candidates);
  }

  method RebuildOne(codec: Codec, chainId: u64, live: Processor, version: u64, snapshot: seq<Envelope>,
                    catchUps: seq<RecoveryCatchUp>) returns (r: Result<Store, ApplyError>)
    ensures r == Rebuild(codec, chainId, live, version, snapshot, catchUps)
  {
    var p := RecoveryCopy(live, version);
    ghost var fresh' := p;
    assert snapshot[0..] == snapshot;
    for i := 0 to |snapshot|
      invariant ReplaySnapshot(codec, chainId, fresh', snapshot) == ReplaySnapshot(codec, chainId, p, snapshot[i..])
    {
      assert snapshot[i..][0] == snapshot[i] && snapshot[i..][1..] == snapshot[i + 1..];
      var one := ObserveEnvelope(codec, chainId, p, snapshot[i], None);
      if one.done.Err? {
        return Err(one.done.error);
      }
      p := one.processor;
    }
    if !p.tracker.state.Live? {
      return Err(ReplacementIncomplete);
    }
    ghost var replayed := p;
    assert catchUps[0..] == catchUps;
    for i := 0 to |catchUps|
      invariant ReplayCatchUps(codec, replayed, catchUps) == ReplayCatchUps(codec, p, catchUps[i..])
    {
      assert catchUps[i..][0] == catchUps[i] && catchUps[i..][1..] == catchUps[i + 1..];
      var one := ApplyLive(codec, p, catchUps[i].update, None);
      if one.done.Err? {
        return Err(one.done.error);
      }
      p := one.processor;
    }
    return Ok(p.store);
  }
}
