/** A backend is rebuilt, or booted, only from a snapshot that is complete for it. */
module Replacements {
  import opened Wrappers
  import opened Wire
  import opened Contracts
  import opened Trackers
  import opened TrackerRuns
  import opened Replay
  import opened StateStores
  import opened Subscription
  import opened Views
  import opened Bootstrap

  /** An observed envelope moves the tracker as the tracker alone would. */
  lemma ObservedTracker(codec: Codec, chainId: u64, p: Processor, e: Envelope)
    requires ObserveEnvelope(codec, chainId, p, e, None).done.Ok?
    ensures Observe(codec.protocols, p.tracker, e).Ok?
    ensures ObserveEnvelope(codec, chainId, p, e, None).processor.tracker == Observe(codec.protocols, p.tracker, e).value.0
  {
    if e.payload.SnapshotChunk? {
      var seen := p.(tracker := Observe(codec.protocols, p.tracker, e).value.0);
      UniqueMeansDistinct(SnapshotBackends(e.payload.partitions), {});
      ChunkBuffered(codec, seen, e.payload.partitions, "");
    } else if e.payload.Update? {
      UpdateObserved(codec, chainId, p, e, None);
    }
  }

  function Observations(snapshot: seq<Envelope>): (calls: seq<Call>)
    ensures |calls| == |snapshot| && forall i :: 0 <= i < |snapshot| ==> calls[i] == Observing(snapshot[i])
  {
    seq(|snapshot|, i requires 0 <= i < |snapshot| => Observing(snapshot[i]))
  }

  /** What was accepted on the way to Live is where the snapshot begins. */
  ghost predicate TracedBy(p: Protocols, snapshot: seq<Envelope>, k: nat, t: Tracker)
    requires k <= |snapshot|
  {
    var x := PerformAll(p, Observations(snapshot[..k]));
    && x.tracker == t
    && |x.boot| <= k && x.boot == snapshot[..|x.boot|]
    && (!t.state.Live? ==> |x.boot| == k)
  }

  lemma {:induction false} ReplayTraces(codec: Codec, chainId: u64, p: Processor, snapshot: seq<Envelope>, k: nat)
    requires p.tracker == FRESH && k <= |snapshot| && ReplaySnapshot(codec, chainId, p, snapshot[..k]).done.Ok?
    ensures TracedBy(codec.protocols, snapshot, k, ReplaySnapshot(codec, chainId, p, snapshot[..k]).processor.tracker)
    decreases k
  {
    if k == 0 {
      assert snapshot[..0] == [];
    } else {
      var before := ReplaySnapshot(codec, chainId, p, snapshot[..k - 1]);
      ReplayOneMore(codec, chainId, p, snapshot, k - 1);
      ReplayTraces(codec, chainId, p, snapshot, k - 1);
      ObservedTracker(codec, chainId, before.processor, snapshot[k - 1]);
      TraceGrows(codec.protocols, snapshot, k, before.processor.tracker);
    }
  }

  lemma TraceGrows(p: Protocols, snapshot: seq<Envelope>, k: nat, t: Tracker)
    requires 0 < k <= |snapshot| && TracedBy(p, snapshot, k - 1, t) && Observe(p, t, snapshot[k - 1]).Ok?
    ensures TracedBy(p, snapshot, k, Observe(p, t, snapshot[k - 1]).value.0)
  {
    var calls := Observations(snapshot[..k]);
    assert calls[..k - 1] == Observations(snapshot[..k - 1]);
    var x := PerformAll(p, calls[..k - 1]);
    assert snapshot[..k] == snapshot[..k - 1] + [snapshot[k - 1]];
    assert t.state.Live? ==> Observe(p, t, snapshot[k - 1]).value.0.state.Live?;
  }

  /** The snapshot opens with a complete bootstrap of the chain that declares the backend. */
  ghost predicate CompleteFor(snapshot: seq<Envelope>, chainId: u64, b: Backend, s: State)
    requires s.Live?
  {
    exists n :: 2 <= n <= |snapshot| && Completed(snapshot[..n], s)
      && snapshot[0].payload.chainId == chainId && b in snapshot[0].payload.backends
  }

  lemma LiveMeansComplete(codec: Codec, chainId: u64, p: Processor, snapshot: seq<Envelope>)
    requires p.tracker == FRESH && ReplaySnapshot(codec, chainId, p, snapshot).done.Ok?
    requires ReplaySnapshot(codec, chainId, p, snapshot).processor.tracker.state.Live?
    ensures CompleteFor(snapshot, chainId, p.backend, ReplaySnapshot(codec, chainId, p, snapshot).processor.tracker.state)
  {
    assert snapshot[..|snapshot|] == snapshot;
    ReplayTraces(codec, chainId, p, snapshot, |snapshot|);
    LiveMeansCompleteBootstrap(codec.protocols, Observations(snapshot));
    var boot := PerformAll(codec.protocols, Observations(snapshot)).boot;
    assert boot == snapshot[..|boot|] && boot[0] == snapshot[0];
    StartNamesBackend(codec, chainId, p, snapshot[0], None);
  }

  /**
   A backend is rebuilt only from a complete replacement: a start of the chain that declares
   the backend, every chunk in order, and the end, covering exactly the declared backends.
   */
  lemma RebuiltFromComplete(codec: Codec, chainId: u64, p: Processor, version: u64, snapshot: seq<Envelope>,
                            catchUps: seq<RecoveryCatchUp>)
    requires Rebuild(codec, chainId, p, version, snapshot, catchUps).Ok?
    ensures exists s: State :: s.Live? && CompleteFor(snapshot, chainId, p.backend, s)
  {
    LiveMeansComplete(codec, chainId, RecoveryCopy(p, version), snapshot);
  }

  /** So is a backend booted with a fresh tracker, from the session's payloads. */
  lemma BootedFromComplete(codec: Codec, chainId: u64, p: Processor, boundary: Boundary, payloads: seq<Envelope>)
    requires p.tracker == FRESH && Booted(codec, chainId, p, boundary, payloads).Ok?
    ensures CompleteFor(payloads, chainId, p.backend, Booted(codec, chainId, p, boundary, payloads).value.processor.tracker.state)
  {
    LiveMeansComplete(codec, chainId, Bootstrap.Pending(p, boundary), payloads);
  }
}
