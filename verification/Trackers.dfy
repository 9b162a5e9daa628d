/**
 The subscription tracker: AwaitingSnapshot, then Snapshot, then Live, one contiguous
 message sequence number at a time. The functions give the meaning of one call; the class
 is the mutable object itself.
 */
module Trackers {
  import opened Wrappers
  import opened Wire
  import opened Contracts

  datatype State =
    | AwaitingSnapshot
    | Snapshot(
        streamId: string,
        chainId: u64,
        snapshotId: string,
        declared: set<Backend>,
        observed: set<Backend>,
        nextChunk: u32,
        totalChunks: u32)
    | Live(streamId: string, chainId: u64, snapshotId: string, declared: set<Backend>)

  datatype Event =
    | SnapshotStarted(snapshotId: string)
    | SnapshotChunkAccepted(snapshotId: string, chunkIndex: u32)
    | SnapshotCompleted(snapshotId: string)
    | UpdateAccepted
    | HeartbeatAccepted
    | ProgressAccepted

  datatype Tracker = Tracker(state: State, next: Option<u64>)

  const FRESH := Tracker(AwaitingSnapshot, None)

  /** A call's new tracker, or the error with which it leaves the tracker alone. */
  type Outcome = Result<(Tracker, Event), ContractError>

  function ObserveAwaiting(t: Tracker, e: Envelope): Outcome {
    match e.payload
    case SnapshotStart(snapshotId, chainId, backends, total) =>
      var _ :- ValidateUnique(backends);
      var next :- NextMessageSeq(e.messageSeq);
      Ok((Tracker(Snapshot(e.streamId, chainId, snapshotId, BackendSet(backends), {}, 0, total), Some(next)),
          SnapshotStarted(snapshotId)))
    case _ => Err(ExpectedSnapshotStart)
  }

  function ObserveSnapshot(p: Protocols, t: Tracker, e: Envelope): Outcome
    requires t.state.Snapshot?
  {
    var s := t.state;
    var _ :- EnsureStreamId(s.streamId, e.streamId);
    var _ :- EnsureMessageSeq(t.next, e.messageSeq);
    var next :- NextMessageSeq(e.messageSeq);
    match e.payload
    case SnapshotStart(_, _, _, _) => Err(UnexpectedSnapshotStart)
    case SnapshotChunk(snapshotId, index, parts) =>
      if snapshotId != s.snapshotId then Err(UnexpectedSnapshotId(s.snapshotId, snapshotId))
      else if s.nextChunk >= s.totalChunks then Err(ExtraSnapshotChunk(s.totalChunks, index))
      else
        var _ :- ValidateSnapshotChunk(p, parts);
        var _ :- ValidateDeclared(SnapshotBackends(parts), s.declared);
        if index != s.nextChunk then Err(UnexpectedChunkIndex(s.nextChunk, index))
        else
          // The guard above keeps this increment inside 32 bits.
          Ok((Tracker(s.(observed := s.observed + BackendSet(SnapshotBackends(parts)),
                         nextChunk := s.nextChunk + 1), Some(next)),
              SnapshotChunkAccepted(snapshotId, index)))
    case SnapshotEnd(snapshotId) =>
      if snapshotId != s.snapshotId then Err(UnexpectedSnapshotId(s.snapshotId, snapshotId))
      else if s.nextChunk != s.totalChunks then Err(SnapshotIncomplete(s.totalChunks, s.nextChunk))
      else if !(s.declared <= s.observed) then
        Err(MissingDeclaredSnapshotBackends(s.declared - s.observed))
      else
        Ok((Tracker(Live(s.streamId, s.chainId, s.snapshotId, s.declared), Some(next)),
            SnapshotCompleted(snapshotId)))
    case Start(_) => Err(UnexpectedRecoveryMessage)
    case Chunk(_) => Err(UnexpectedRecoveryMessage)
    case CatchUp(_) => Err(UnexpectedRecoveryMessage)
    case Commit(_) => Err(UnexpectedRecoveryMessage)
    case Update(_) => Err(UpdateBeforeSnapshotComplete)
    case Heartbeat(_, _, _) => Err(HeartbeatBeforeSnapshotComplete)
    case Progress(_, _, _, _) => Err(ProgressBeforeSnapshotComplete)
  }

  function ObserveLive(p: Protocols, t: Tracker, e: Envelope): Outcome
    requires t.state.Live?
  {
    var s := t.state;
    var _ :- EnsureStreamId(s.streamId, e.streamId);
    var _ :- EnsureMessageSeq(t.next, e.messageSeq);
    var next :- NextMessageSeq(e.messageSeq);
    match e.payload
    case SnapshotStart(_, _, _, _) => Err(UnexpectedSnapshotStart)
    case SnapshotChunk(_, _, _) => Err(UnexpectedSnapshotChunk)
    case SnapshotEnd(_) => Err(UnexpectedSnapshotEnd)
    case Start(_) => Err(UnexpectedRecoveryMessage)
    case Chunk(_) => Err(UnexpectedRecoveryMessage)
    case CatchUp(_) => Err(UnexpectedRecoveryMessage)
    case Commit(_) => Err(UnexpectedRecoveryMessage)
    case Update(update) =>
      var _ :- ValidateUpdate(p, update);
      var _ :- ValidateDeclared(UpdateBackends(update), s.declared);
      Ok((t.(next := Some(next)), UpdateAccepted))
    case Heartbeat(chainId, snapshotId, heads) =>
      var _ :- ValidateUnique(Heads(heads));
      var _ :- ValidateDeclared(Heads(heads), s.declared);
      var _ :- EnsureChainId(s.chainId, chainId);
      var _ :- EnsureSnapshotId(s.snapshotId, snapshotId);
      Ok((t.(next := Some(next)), HeartbeatAccepted))
    case Progress(chainId, snapshotId, backends, _) =>
      var _ :- ValidateUnique(backends);
      var _ :- ValidateDeclared(backends, s.declared);
      var _ :- EnsureChainId(s.chainId, chainId);
      var _ :- EnsureSnapshotId(s.snapshotId, snapshotId);
      Ok((t.(next := Some(next)), ProgressAccepted))
  }

  function Observe(p: Protocols, t: Tracker, e: Envelope): Outcome {
    match t.state
    case AwaitingSnapshot => ObserveAwaiting(t, e)
    case Snapshot(_, _, _, _, _, _, _) => ObserveSnapshot(p, t, e)
    case Live(_, _, _, _) => ObserveLive(p, t, e)
  }

  function Skip(t: Tracker, e: Envelope): Result<Tracker, ContractError> {
    if !t.state.Live? then Err(BoundaryBeforeSnapshotComplete)
    else
      var _ :- EnsureStreamId(t.state.streamId, e.streamId);
      var _ :- EnsureMessageSeq(t.next, e.messageSeq);
      var next :- NextMessageSeq(e.messageSeq);
      match e.payload
      case SnapshotStart(_, _, _, _) => Err(UnexpectedSnapshotStart)
      case SnapshotChunk(_, _, _) => Err(UnexpectedSnapshotChunk)
      case SnapshotEnd(_) => Err(UnexpectedSnapshotEnd)
      case Start(_) => Err(UnexpectedRecoveryMessage)
      case Chunk(_) => Err(UnexpectedRecoveryMessage)
      case CatchUp(_) => Err(UnexpectedRecoveryMessage)
      case Commit(_) => Err(UnexpectedRecoveryMessage)
      case _ => Ok(t.(next := Some(next)))
  }

  function Align(t: Tracker, boundary: Boundary): Result<Tracker, ContractError> {
    if !t.state.Live? then Err(BoundaryBeforeSnapshotComplete)
    else
      var _ :- EnsureStreamId(t.state.streamId, boundary.streamId);
      var _ :- EnsureSnapshotId(t.state.snapshotId, boundary.snapshotId);
      var next :- NextMessageSeq(boundary.exclusiveSeq);
      Ok(t.(next := Some(next)))
  }

  /** The tracker as the source's mutable object. */
  class SubscriptionTracker {
    var state: State
    var nextMessageSeq: Option<u64>
    const protocols: Protocols

    function Value(): Tracker
      reads this
    {
      Tracker(state, nextMessageSeq)
    }

    constructor (protocols: Protocols)
      ensures Value() == FRESH && this.protocols == protocols
    {
      this.protocols := protocols;
      state, nextMessageSeq := AwaitingSnapshot, None;
    }

    method ResetForReconnect()
      modifies this
      ensures Value() == FRESH
    {
      state := AwaitingSnapshot;
      nextMessageSeq := None;
    }

    method AlignLiveReplayBoundary(boundary: Boundary) returns (r: Check)
      modifies this
      ensures r.Ok? <==> Align(old(Value()), boundary).Ok?
      ensures r.Ok? ==> Value() == Align(old(Value()), boundary).value
      ensures r.Err? ==> Value() == old(Value()) && r.error == Align(old(Value()), boundary).error
    {
      if !state.Live? {
        return Err(BoundaryBeforeSnapshotComplete);
      }
      var _ :- EnsureStreamId(state.streamId, boundary.streamId);
      var _ :- EnsureSnapshotId(state.snapshotId, boundary.snapshotId);
      var next :- NextMessageSeq(boundary.exclusiveSeq);
      nextMessageSeq := Some(next);
      return PASS;
    }

    method SkipLiveDelta(e: Envelope) returns (r: Check)
      modifies this
      ensures r.Ok? <==> Skip(old(Value()), e).Ok?
      ensures r.Ok? ==> Value() == Skip(old(Value()), e).value
      ensures r.Err? ==> Value() == old(Value()) && r.error == Skip(old(Value()), e).error
    {
      if !state.Live? {
        return Err(BoundaryBeforeSnapshotComplete);
      }
      var _ :- EnsureStreamId(state.streamId, e.streamId);
      var _ :- EnsureMessageSeq(nextMessageSeq, e.messageSeq);
      var next :- NextMessageSeq(e.messageSeq);
      match e.payload {
        case SnapshotStart(_, _, _, _) => return Err(UnexpectedSnapshotStart);
        case SnapshotChunk(_, _, _) => return Err(UnexpectedSnapshotChunk);
        case SnapshotEnd(_) => return Err(UnexpectedSnapshotEnd);
        case Start(_) => return Err(UnexpectedRecoveryMessage);
        case Chunk(_) => return Err(UnexpectedRecoveryMessage);
        case CatchUp(_) => return Err(UnexpectedRecoveryMessage);
        case Commit(_) => return Err(UnexpectedRecoveryMessage);
        case _ =>
          nextMessageSeq := Some(next);
          return PASS;
      }
    }

    method ObserveEnvelope(e: Envelope) returns (r: Result<Event, ContractError>)
      modifies this
      ensures r.Ok? <==> Observe(protocols, old(Value()), e).Ok?
      ensures r.Ok? ==> (Value(), r.value) == Observe(protocols, old(Value()), e).value
      ensures r.Err? ==> Value() == old(Value()) && r.error == Observe(protocols, old(Value()), e).error
    {
      match state {
        case AwaitingSnapshot => r := ObserveAwaitingSnapshot(e);
        case Snapshot(_, _, _, _, _, _, _) => r := ObserveSnapshotPhase(e);
        case Live(_, _, _, _) => r := ObserveLivePhase(e);
      }
    }

    method ObserveAwaitingSnapshot(e: Envelope) returns (r: Result<Event, ContractError>)
      requires state.AwaitingSnapshot?
      modifies this
      ensures r.Ok? <==> ObserveAwaiting(old(Value()), e).Ok?
      ensures r.Ok? ==> (Value(), r.value) == ObserveAwaiting(old(Value()), e).value
      ensures r.Err? ==> Value() == old(Value()) && r.error == ObserveAwaiting(old(Value()), e).error
    {
      if !e.payload.SnapshotStart? {
        return Err(ExpectedSnapshotStart);
      }
      var _ :- CheckUnique(e.payload.backends);
      var next :- NextMessageSeq(e.messageSeq);
      state := Snapshot(e.streamId, e.payload.chainId, e.payload.snapshotId,
                        BackendSet(e.payload.backends), {}, 0, e.payload.totalChunks);
      nextMessageSeq := Some(next);
      return Ok(SnapshotStarted(e.payload.snapshotId));
    }

    method ObserveSnapshotPhase(e: Envelope) returns (r: Result<Event, ContractError>)
      requires state.Snapshot?
      modifies this
      ensures r.Ok? <==> ObserveSnapshot(protocols, old(Value()), e).Ok?
      ensures r.Ok? ==> (Value(), r.value) == ObserveSnapshot(protocols, old(Value()), e).value
      ensures r.Err? ==>
        Value() == old(Value()) && r.error == ObserveSnapshot(protocols, old(Value()), e).error
    {
      var _ :- EnsureStreamId(state.streamId, e.streamId);
      var _ :- EnsureMessageSeq(nextMessageSeq, e.messageSeq);
      var next :- NextMessageSeq(e.messageSeq);
      match e.payload {
        case SnapshotChunk(snapshotId, index, parts) =>
          if snapshotId != state.snapshotId {
            return Err(UnexpectedSnapshotId(state.snapshotId, snapshotId));
          }
          if state.nextChunk >= state.totalChunks {
            return Err(ExtraSnapshotChunk(state.totalChunks, index));
          }
          var _ :- ValidateSnapshotChunk(protocols, parts);
          var _ :- ValidateDeclared(SnapshotBackends(parts), state.declared);
          if index != state.nextChunk {
            return Err(UnexpectedChunkIndex(state.nextChunk, index));
          }
          var seen := state.observed + BackendSet(SnapshotBackends(parts));
          state := state.(observed := seen, nextChunk := state.nextChunk + 1);
          nextMessageSeq := Some(next);
          return Ok(SnapshotChunkAccepted(snapshotId, index));
        case SnapshotEnd(snapshotId) =>
          if snapshotId != state.snapshotId {
            return Err(UnexpectedSnapshotId(state.snapshotId, snapshotId));
          }
          if state.nextChunk != state.totalChunks {
            return Err(SnapshotIncomplete(state.totalChunks, state.nextChunk));
          }
          var missing := state.declared - state.observed;
          if missing != {} {
            return Err(MissingDeclaredSnapshotBackends(missing));
          }
          assert forall b :: b in state.declared && b !in state.observed ==> b in missing;
          state := Live(state.streamId, state.chainId, state.snapshotId, state.declared);
          nextMessageSeq := Some(next);
          return Ok(SnapshotCompleted(snapshotId));
        case SnapshotStart(_, _, _, _) => return Err(UnexpectedSnapshotStart);
        case Start(_) => return Err(UnexpectedRecoveryMessage);
        case Chunk(_) => return Err(UnexpectedRecoveryMessage);
        case CatchUp(_) => return Err(UnexpectedRecoveryMessage);
        case Commit(_) => return Err(UnexpectedRecoveryMessage);
        case Update(_) => return Err(UpdateBeforeSnapshotComplete);
        case Heartbeat(_, _, _) => return Err(HeartbeatBeforeSnapshotComplete);
        case Progress(_, _, _, _) => return Err(ProgressBeforeSnapshotComplete);
      }
    }

    method ObserveLivePhase(e: Envelope) returns (r: Result<Event, ContractError>)
      requires state.Live?
      modifies this
      ensures r.Ok? <==> ObserveLive(protocols, old(Value()), e).Ok?
      ensures r.Ok? ==> (Value(), r.value) == ObserveLive(protocols, old(Value()), e).value
      ensures r.Err? ==>
        Value() == old(Value()) && r.error == ObserveLive(protocols, old(Value()), e).error
    {
      var _ :- EnsureStreamId(state.streamId, e.streamId);
      var _ :- EnsureMessageSeq(nextMessageSeq, e.messageSeq);
      var next :- NextMessageSeq(e.messageSeq);
      match e.payload {
        case SnapshotStart(_, _, _, _) => return Err(UnexpectedSnapshotStart);
        case SnapshotChunk(_, _, _) => return Err(UnexpectedSnapshotChunk);
        case SnapshotEnd(_) => return Err(UnexpectedSnapshotEnd);
        case Start(_) => return Err(UnexpectedRecoveryMessage);
        case Chunk(_) => return Err(UnexpectedRecoveryMessage);
        case CatchUp(_) => return Err(UnexpectedRecoveryMessage);
        case Commit(_) => return Err(UnexpectedRecoveryMessage);
        case Update(update) =>
          var _ :- ValidateUpdate(protocols, update);
          var _ :- ValidateDeclared(UpdateBackends(update), state.declared);
          nextMessageSeq := Some(next);
          return Ok(UpdateAccepted);
        case Heartbeat(chainId, snapshotId, heads) =>
          var _ :- CheckUnique(Heads(heads));
          var _ :- ValidateDeclared(Heads(heads), state.declared);
          var _ :- EnsureChainId(state.chainId, chainId);
          var _ :- EnsureSnapshotId(state.snapshotId, snapshotId);
          nextMessageSeq := Some(next);
          return Ok(HeartbeatAccepted);
        case Progress(chainId, snapshotId, backends, _) =>
          var _ :- CheckUnique(backends);
          var _ :- ValidateDeclared(backends, state.declared);
          var _ :- EnsureChainId(state.chainId, chainId);
          var _ :- EnsureSnapshotId(state.snapshotId, snapshotId);
          nextMessageSeq := Some(next);
          return Ok(ProgressAccepted);
      }
    }
  }
}
