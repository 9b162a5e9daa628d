/** Bootstrapping every processor from one snapshot session, up to the replay boundary. */
module Bootstrap {
  import opened Wrappers
  import opened Wire
  import opened Contracts
  import opened EntryIds
  import opened Trackers
  import opened Replay
  import opened StateStores
  import opened Subscription
  import opened RecoveryInvariant
  import opened RecoveryRuns
  import opened Views

  /** A processor about to read the session: its boundary set, its health just started. */
  function Pending(p: Processor, boundary: Boundary): Processor {
    p.(bootVersion := Some(boundary.stateVersion), head := 0)
  }

  /** Bootstrap must be complete before the tracker is aligned past the boundary. */
  function Finish(p: Processor, boundary: Boundary): Result<Prepared, ApplyError> {
    if !p.tracker.state.Live? then Err(ReplacementIncomplete)
    else
      match Align(p.tracker, boundary)
      case Err(error) => Err(InvalidEnvelope(error))
      case Ok(tracker) => Ok(Prepared(p.(tracker := tracker), boundary))
  }

  /** One processor on its own: the whole snapshot, then the boundary. */
  function Booted(codec: Codec, chainId: u64, p: Processor, boundary: Boundary, payloads: seq<Envelope>)
    : Result<Prepared, ApplyError>
  {
    var replayed := ReplaySnapshot(codec, chainId, Pending(p, boundary), payloads);
    if replayed.done.Err? then Err(replayed.done.error) else Finish(replayed.processor, boundary)
  }

  lemma {:induction false} ReplayOneMore(codec: Codec, chainId: u64, p: Processor, payloads: seq<Envelope>, k: nat)
    requires k < |payloads|
    ensures var before := ReplaySnapshot(codec, chainId, p, payloads[..k]);
      ReplaySnapshot(codec, chainId, p, payloads[..k + 1]) ==
      if before.done.Err? then before else ObserveEnvelope(codec, chainId, before.processor, payloads[k], None)
    decreases k
  {
    if k == 0 {
      assert payloads[..0] == [] && payloads[..1] == [payloads[0]];
      assert [payloads[0]][1..] == [];
      var one := ObserveEnvelope(codec, chainId, p, payloads[0], None);
      assert one.done.Ok? ==> one.done.value == Unit;
    } else {
      assert payloads[..k + 1][1..] == payloads[1..][..k] && payloads[..k][1..] == payloads[1..][..k - 1];
      var one := ObserveEnvelope(codec, chainId, p, payloads[0], None);
      if one.done.Ok? {
        ReplayOneMore(codec, chainId, one.processor, payloads[1..], k - 1);
      }
    }
  }

  lemma {:induction false} FailureStays(codec: Codec, chainId: u64, p: Processor, payloads: seq<Envelope>, k: nat)
    requires k <= |payloads| && ReplaySnapshot(codec, chainId, p, payloads[..k]).done.Err?
    ensures ReplaySnapshot(codec, chainId, p, payloads).done.Err?
    decreases |payloads| - k
  {
    if k == |payloads| {
      assert payloads[..k] == payloads;
    } else {
      ReplayOneMore(codec, chainId, p, payloads, k);
      FailureStays(codec, chainId, p, payloads, k + 1);
    }
  }

  ghost predicate FailsBy(codec: Codec, chainId: u64, p: Processor, boundary: Boundary, payloads: seq<Envelope>, k: nat)
    requires k <= |payloads|
  {
    ReplaySnapshot(codec, chainId, Pending(p, boundary), payloads[..k]).done.Err?
  }

  /** The processors after the first `k` payloads. */
  ghost predicate ReadSoFar(codec: Codec, chainId: u64, ps: seq<Processor>, boundary: Boundary, payloads: seq<Envelope>,
                            k: nat, now: seq<Processor>, lo: nat, hi: nat)
    requires k <= |payloads| && lo <= hi <= |now| == |ps|
  {
    forall i :: lo <= i < hi ==>
      var r := ReplaySnapshot(codec, chainId, Pending(ps[i], boundary), payloads[..k]);
      r.done.Ok? && r.processor == now[i]
  }

  /** One payload to every processor in turn. */
  method ReadPayload(codec: Codec, chainId: u64, ps: seq<Processor>, boundary: Boundary, payloads: seq<Envelope>, k: nat,
                     before: seq<Processor>) returns (r: Result<seq<Processor>, ApplyError>)
    requires k < |payloads| && |before| == |ps|
    requires ReadSoFar(codec, chainId, ps, boundary, payloads, k, before, 0, |ps|)
    ensures r.Ok? ==>
      |r.value| == |ps| && ReadSoFar(codec, chainId, ps, boundary, payloads, k + 1, r.value, 0, |ps|)
    ensures r.Err? ==> exists i :: 0 <= i < |ps| && FailsBy(codec, chainId, ps[i], boundary, payloads, k + 1)
  {
    var now := before;
    for i := 0 to |ps|
      invariant |now| == |ps| && now[i..] == before[i..]
      invariant ReadSoFar(codec, chainId, ps, boundary, payloads, k + 1, now, 0, i)
    {
      assert now[i] == now[i..][0] == before[i];
      ReplayOneMore(codec, chainId, Pending(ps[i], boundary), payloads, k);
      var one := ObserveEnvelope(codec, chainId, now[i], payloads[k], None);
      if one.done.Err? {
        assert FailsBy(codec, chainId, ps[i], boundary, payloads, k + 1);
        return Err(one.done.error);
      }
      now := now[i := one.processor];
      assert now[i + 1..] == before[i..][1..];
    }
    return Ok(now);
  }

  /** Every payload to every processor in turn, as the session delivers them. */
  method ReadPayloads(codec: Codec, chainId: u64, ps: seq<Processor>, boundary: Boundary, payloads: seq<Envelope>)
    returns (r: Result<seq<Processor>, ApplyError>)
    ensures r.Ok? <==> forall i :: 0 <= i < |ps| ==>
      ReplaySnapshot(codec, chainId, Pending(ps[i], boundary), payloads).done.Ok?
    ensures r.Ok? ==> |r.value| == |ps|
    ensures r.Ok? ==> forall i :: 0 <= i < |ps| ==>
      r.value[i] == ReplaySnapshot(codec, chainId, Pending(ps[i], boundary), payloads).processor
  {
    var now := seq(|ps|, i requires 0 <= i < |ps| => Pending(ps[i], boundary));
    assert payloads[..0] == [];
    for k := 0 to |payloads|
      invariant |now| == |ps|
      invariant ReadSoFar(codec, chainId, ps, boundary, payloads, k, now, 0, |ps|)
    {
      var next := ReadPayload(codec, chainId, ps, boundary, payloads, k, now);
      if next.Err? {
        ghost var i :| 0 <= i < |ps| && FailsBy(codec, chainId, ps[i], boundary, payloads, k + 1);
        FailureStays(codec, chainId, Pending(ps[i], boundary), payloads, k + 1);
        return Err(next.error);
      }
      now := next.value;
    }
    assert payloads[..|payloads|] == payloads;
    return Ok(now);
  }

  /** `bootstrap_pending_processors` over an already fetched session. */
  method BootstrapProcessors(codec: Codec, chainId: u64, ps: seq<Processor>, boundary: Boundary, payloads: seq<Envelope>)
    returns (r: Result<seq<Prepared>, ApplyError>)
    ensures r.Ok? <==> forall i :: 0 <= i < |ps| ==> Booted(codec, chainId, ps[i], boundary, payloads).Ok?
    ensures r.Ok? ==> |r.value| == |ps| && forall i :: 0 <= i < |ps| ==>
      Booted(codec, chainId, ps[i], boundary, payloads) == Ok(r.value[i])
  {
    var read := ReadPayloads(codec, chainId, ps, boundary, payloads);
    if read.Err? {
      return Err(read.error);
    }
    var prepared: seq<Prepared> := [];
    for i := 0 to |ps|
      invariant |prepared| == i
      invariant forall j :: 0 <= j < i ==> Booted(codec, chainId, ps[j], boundary, payloads) == Ok(prepared[j])
    {
      assert Booted(codec, chainId, ps[i], boundary, payloads) == Finish(read.value[i], boundary);
      var finished := Finish(read.value[i], boundary);
      if finished.Err? {
        return Err(finished.error);
      }
      prepared := prepared + [finished.value];
    }
    return Ok(prepared);
  }

  /** The subscription as replay begins. */
  function Subscribed(chainId: u64, prepared: seq<Prepared>, boundary: Boundary, redisMaxlen: Option<u64>): Sub {
    Sub(prepared, boundary, chainId, None, redisMaxlen)
  }

  /**
   A successful bootstrap establishes the invariant every replay run starts from: all trackers
   Live on the session's stream and snapshot, expecting the entry after its boundary.
   */
  lemma BootstrapEstablishesInvariant(codec: Codec, chainId: u64, ps: seq<Processor>, boundary: Boundary,
                                      payloads: seq<Envelope>, prepared: seq<Prepared>, redisMaxlen: Option<u64>)
    requires ps != [] && |prepared| == |ps| && ValidBoundary(boundary)
    requires forall i :: 0 <= i < |ps| ==> Booted(codec, chainId, ps[i], boundary, payloads) == Ok(prepared[i])
    ensures Bootstrapped(Subscribed(chainId, prepared, boundary, redisMaxlen), NewCheckpoint(boundary, chainId))
  {
    var sub := Subscribed(chainId, prepared, boundary, redisMaxlen);
    forall i | 0 <= i < |ps|
      ensures boundary.exclusiveSeq < U64_MAX && prepared[i].boundary == boundary
      ensures var t := prepared[i].processor.tracker;
        && t.state.Live? && t.state.streamId == boundary.streamId && t.state.snapshotId == boundary.snapshotId
        && t.next == Some(boundary.exclusiveSeq + 1)
    {
      assert Booted(codec, chainId, ps[i], boundary, payloads).Ok?;
      var replayed := ReplaySnapshot(codec, chainId, Pending(ps[i], boundary), payloads).processor;
      assert Align(replayed.tracker, boundary).Ok?;
    }
    assert prepared[0].boundary == boundary;
  }

  // What the store holds then.

  /** Every pool of a booted backend is what the session's payloads say, on top of what it held. */
  lemma BootedView(codec: Codec, chainId: u64, p: Processor, boundary: Boundary, payloads: seq<Envelope>, id: string)
    requires Booted(codec, chainId, p, boundary, payloads).Ok?
    ensures var q := Booted(codec, chainId, p, boundary, payloads).value.processor;
      && q.backend == p.backend
      && View(q.store.content, id) == SnapshotView(codec, p.backend, id, View(p.store.content, id), p.raw, payloads)
  {
    ReplayedView(codec, chainId, Pending(p, boundary), payloads, id);
  }

  lemma {:induction false} SnapshotMovesNoHead(codec: Codec, chainId: u64, p: Processor, payloads: seq<Envelope>)
    requires ReplaySnapshot(codec, chainId, p, payloads).done.Ok?
    requires forall i :: 0 <= i < |payloads| ==> !payloads[i].payload.Update?
    ensures ReplaySnapshot(codec, chainId, p, payloads).processor.head == p.head
    decreases |payloads|
  {
    if payloads != [] {
      ObservedView(codec, chainId, p, payloads[0], "");
      EnvelopeMovesNoHead(codec, chainId, p, payloads[0]);
      assert forall i :: 0 < i < |payloads| ==> payloads[1..][i - 1] == payloads[i];
      SnapshotMovesNoHead(codec, chainId, ObserveEnvelope(codec, chainId, p, payloads[0], None).processor, payloads[1..]);
    }
  }

  lemma EnvelopeMovesNoHead(codec: Codec, chainId: u64, p: Processor, e: Envelope)
    requires ObserveEnvelope(codec, chainId, p, e, None).done.Ok? && !e.payload.Update?
    ensures ObserveEnvelope(codec, chainId, p, e, None).processor.head == p.head
  {
    if e.payload.SnapshotChunk? {
      var seen := p.(tracker := Observe(codec.protocols, p.tracker, e).value.0);
      UniqueMeansDistinct(SnapshotBackends(e.payload.partitions), {});
      ChunkBuffered(codec, seen, e.payload.partitions, "");
    }
  }

  /** A booted backend reports no head until replay moves it. */
  lemma BootedHead(codec: Codec, chainId: u64, p: Processor, boundary: Boundary, payloads: seq<Envelope>)
    requires Booted(codec, chainId, p, boundary, payloads).Ok?
    requires forall i :: 0 <= i < |payloads| ==> !payloads[i].payload.Update?
    ensures Booted(codec, chainId, p, boundary, payloads).value.processor.head == 0
  {
    SnapshotMovesNoHead(codec, chainId, Pending(p, boundary), payloads);
  }

  /** The store from the snapshot's end on: at the boundary's version, served if it has pools. */
  ghost predicate AtBoundary(p: Processor, boundary: Boundary) {
    && p.tracker.state.Live?
    && p.store.content.version == boundary.stateVersion
    && (p.store.requestsAllowed <==> p.store.content.pools != map[])
  }

  lemma EndReachesBoundary(codec: Codec, chainId: u64, p: Processor, boundary: Boundary, e: Envelope)
    requires p.bootVersion == Some(boundary.stateVersion) && e.payload.SnapshotEnd?
    requires ObserveEnvelope(codec, chainId, p, e, None).done.Ok?
    ensures AtBoundary(ObserveEnvelope(codec, chainId, p, e, None).processor, boundary)
  {
    FinishedView(codec, p.(tracker := Observe(codec.protocols, p.tracker, e).value.0), "");
  }

  lemma QuietKeepsBoundary(codec: Codec, chainId: u64, p: Processor, boundary: Boundary, e: Envelope)
    requires AtBoundary(p, boundary) && !e.payload.Update?
    requires ObserveEnvelope(codec, chainId, p, e, None).done.Ok?
    ensures AtBoundary(ObserveEnvelope(codec, chainId, p, e, None).processor, boundary)
  {
  }

  lemma {:induction false} BoundaryHolds(codec: Codec, chainId: u64, p: Processor, boundary: Boundary, payloads: seq<Envelope>,
                                         end: nat, k: nat)
    requires p.bootVersion == Some(boundary.stateVersion)
    requires end < k <= |payloads| && payloads[end].payload.SnapshotEnd?
    requires forall i :: end < i < k ==> !payloads[i].payload.Update?
    requires ReplaySnapshot(codec, chainId, p, payloads[..k]).done.Ok?
    ensures AtBoundary(ReplaySnapshot(codec, chainId, p, payloads[..k]).processor, boundary)
    decreases k
  {
    ReplayOneMore(codec, chainId, p, payloads, k - 1);
    var before := ReplaySnapshot(codec, chainId, p, payloads[..k - 1]);
    if end == k - 1 {
      ReplayedView(codec, chainId, p, payloads[..k - 1], "");
      EndReachesBoundary(codec, chainId, before.processor, boundary, payloads[end]);
    } else {
      BoundaryHolds(codec, chainId, p, boundary, payloads, end, k - 1);
      QuietKeepsBoundary(codec, chainId, before.processor, boundary, payloads[k - 1]);
    }
  }

  /** A booted backend stands at the boundary's version, unless updates follow the snapshot's end. */
  lemma BootedAtBoundary(codec: Codec, chainId: u64, p: Processor, boundary: Boundary, payloads: seq<Envelope>, end: nat)
    requires Booted(codec, chainId, p, boundary, payloads).Ok?
    requires end < |payloads| && payloads[end].payload.SnapshotEnd?
    requires forall i :: end < i < |payloads| ==> !payloads[i].payload.Update?
    ensures var s := Booted(codec, chainId, p, boundary, payloads).value.processor.store;
      s.content.version == boundary.stateVersion && (s.requestsAllowed <==> s.content.pools != map[])
  {
    assert payloads[..|payloads|] == payloads;
    BoundaryHolds(codec, chainId, Pending(p, boundary), boundary, payloads, end, |payloads|);
  }
}
