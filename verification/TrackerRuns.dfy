/** What the tracker guarantees over every sequence of calls. */
module TrackerRuns {
  import opened Wrappers
  import opened Wire
  import opened Contracts
  import opened Trackers

  datatype Call =
    | Observing(e: Envelope)
    | Skipping(e: Envelope)
    | Aligning(boundary: Boundary)
    | Resetting

  /** A tracker with the envelopes it accepted on its way to Live since the last reset. */
  datatype Traced = Traced(tracker: Tracker, boot: seq<Envelope>)

  function Perform(p: Protocols, x: Traced, call: Call): Traced {
    match call
    case Observing(e) =>
      (match Observe(p, x.tracker, e)
       case Ok((t, _)) => Traced(t, if x.tracker.state.Live? then x.boot else x.boot + [e])
       case Err(_) => x)
    case Skipping(e) =>
      (match Skip(x.tracker, e)
       case Ok(t) => x.(tracker := t)
       case Err(_) => x)
    case Aligning(boundary) =>
      (match Align(x.tracker, boundary)
       case Ok(t) => x.(tracker := t)
       case Err(_) => x)
    case Resetting => Traced(FRESH, [])
  }

  function PerformAll(p: Protocols, calls: seq<Call>): Traced {
    if calls == [] then Traced(FRESH, [])
    else Perform(p, PerformAll(p, calls[..|calls| - 1]), calls[|calls| - 1])
  }

  /** The backends named by the first `k` chunks after the start message. */
  ghost function ChunkBackends(boot: seq<Envelope>, k: nat): set<Backend>
    requires k < |boot|
    requires forall i :: 1 <= i <= k ==> boot[i].payload.SnapshotChunk?
  {
    if k == 0 then {}
    else ChunkBackends(boot, k - 1) + BackendSet(SnapshotBackends(boot[k].payload.partitions))
  }

  /** `boot` is Start(total), then the chunks 0..k-1, on one stream, with consecutive numbers. */
  ghost predicate Opened(boot: seq<Envelope>, k: nat, total: u32, streamId: string, chainId: u64, snapshotId: string,
                         declared: set<Backend>, observed: set<Backend>)
  {
    && k <= total
    && k < |boot|
    && boot[0].payload.SnapshotStart?
    && boot[0].payload.snapshotId == snapshotId
    && boot[0].payload.chainId == chainId
    && boot[0].payload.totalChunks == total
    && Distinct(boot[0].payload.backends)
    && BackendSet(boot[0].payload.backends) == declared
    && (forall i :: 0 <= i <= k ==> boot[i].streamId == streamId)
    && (forall i :: 0 <= i <= k ==> boot[i].messageSeq == boot[0].messageSeq + i)
    && (forall i :: 1 <= i <= k ==> boot[i].payload.SnapshotChunk?)
    && (forall i :: 1 <= i <= k ==>
          boot[i].payload.snapshotId == snapshotId && boot[i].payload.chunkIndex == i - 1)
    && ChunkBackends(boot, k) == observed <= declared
  }

  /** A complete bootstrap: every chunk, then the end, and exactly the declared backends. */
  ghost predicate Completed(boot: seq<Envelope>, s: State)
    requires s.Live?
  {
    && |boot| >= 2
    && var n := |boot| - 2;
    && n <= U32_MAX
    && Opened(boot, n, n, s.streamId, s.chainId, s.snapshotId, s.declared, s.declared)
    && boot[n + 1] == Envelope(s.streamId, boot[n + 1].messageSeq, SnapshotEnd(s.snapshotId))
    && boot[n + 1].messageSeq == boot[0].messageSeq + n + 1
  }

  ghost predicate Sound(x: Traced) {
    match x.tracker.state
    case AwaitingSnapshot => x.boot == [] && x.tracker.next.None?
    case Snapshot(streamId, chainId, snapshotId, declared, observed, k, total) =>
      && |x.boot| == k + 1
      && Opened(x.boot, k, total, streamId, chainId, snapshotId, declared, observed)
      && x.tracker.next == Some(x.boot[0].messageSeq + k + 1)
    case Live(_, _, _, _) => x.tracker.next.Some? && Completed(x.boot, x.tracker.state)
  }

  lemma {:induction false} ChunkBackendsExtend(boot: seq<Envelope>, e: Envelope, k: nat)
    requires k < |boot|
    requires forall i :: 1 <= i <= k ==> boot[i].payload.SnapshotChunk?
    ensures forall i :: 1 <= i <= k ==> (boot + [e])[i].payload.SnapshotChunk?
    ensures ChunkBackends(boot + [e], k) == ChunkBackends(boot, k)
  {
    assert forall i :: 0 <= i < |boot| ==> (boot + [e])[i] == boot[i];
    if k > 0 {
      ChunkBackendsExtend(boot, e, k - 1);
    }
  }

  lemma StartOpens(e: Envelope)
    requires e.payload.SnapshotStart? && ValidateUnique(e.payload.backends).Ok?
    ensures Opened([e], 0, e.payload.totalChunks, e.streamId, e.payload.chainId, e.payload.snapshotId,
                   BackendSet(e.payload.backends), {})
  {
    UniqueMeansDistinct(e.payload.backends, {});
  }

  lemma AwaitingStaysSound(p: Protocols, x: Traced, e: Envelope)
    requires Sound(x) && x.tracker.state.AwaitingSnapshot? && Observe(p, x.tracker, e).Ok?
    ensures Sound(Perform(p, x, Observing(e)))
  {
    assert e.payload.SnapshotStart?;
    StartOpens(e);
    assert x.boot + [e] == [e];
  }

  lemma ChunkStaysSound(p: Protocols, x: Traced, e: Envelope)
    requires Sound(x) && x.tracker.state.Snapshot? && e.payload.SnapshotChunk?
    requires ObserveSnapshot(p, x.tracker, e).Ok?
    ensures Sound(Traced(ObserveSnapshot(p, x.tracker, e).value.0, x.boot + [e]))
  {
    var s := x.tracker.state;
    var parts := SnapshotBackends(e.payload.partitions);
    DeclaredMeansSubset(parts, s.declared);
    assert BackendSet(parts) <= s.declared;
    ChunkOpensMore(x.boot, e, s.nextChunk, s.totalChunks, s.streamId, s.chainId, s.snapshotId, s.declared, s.observed);
  }

  /** The next chunk of the same snapshot extends what was opened. */
  lemma ChunkOpensMore(boot: seq<Envelope>, e: Envelope, k: nat, total: u32, streamId: string, chainId: u64,
                       snapshotId: string, declared: set<Backend>, observed: set<Backend>)
    requires |boot| == k + 1 && k < total
    requires Opened(boot, k, total, streamId, chainId, snapshotId, declared, observed)
    requires e.streamId == streamId && e.messageSeq == boot[0].messageSeq + k + 1 && e.payload.SnapshotChunk?
    requires e.payload.snapshotId == snapshotId && e.payload.chunkIndex == k
    requires BackendSet(SnapshotBackends(e.payload.partitions)) <= declared
    ensures Opened(boot + [e], k + 1, total, streamId, chainId, snapshotId, declared,
                   observed + BackendSet(SnapshotBackends(e.payload.partitions)))
  {
    ChunkBackendsExtend(boot, e, k);
    assert (boot + [e])[k + 1] == e;
    assert forall i :: 0 <= i <= k ==> (boot + [e])[i] == boot[i];
  }

  lemma EndStaysSound(p: Protocols, x: Traced, e: Envelope)
    requires Sound(x) && x.tracker.state.Snapshot? && e.payload.SnapshotEnd?
    requires ObserveSnapshot(p, x.tracker, e).Ok?
    ensures Sound(Traced(ObserveSnapshot(p, x.tracker, e).value.0, x.boot + [e]))
  {
    var s := x.tracker.state;
    var boot := x.boot + [e];
    ChunkBackendsExtend(x.boot, e, s.nextChunk);
    assert forall i :: 0 <= i < |x.boot| ==> boot[i] == x.boot[i];
    assert s.observed == s.declared;
    assert Opened(boot, s.nextChunk, s.nextChunk, s.streamId, s.chainId, s.snapshotId, s.declared, s.declared);
  }

  lemma CallStaysSound(p: Protocols, x: Traced, call: Call)
    requires Sound(x)
    ensures Sound(Perform(p, x, call))
  {
    if call.Observing? && Observe(p, x.tracker, call.e).Ok? {
      if x.tracker.state.AwaitingSnapshot? {
        AwaitingStaysSound(p, x, call.e);
      } else if x.tracker.state.Snapshot? {
        if call.e.payload.SnapshotChunk? {
          ChunkStaysSound(p, x, call.e);
        } else {
          EndStaysSound(p, x, call.e);
        }
      }
    }
  }

  lemma {:induction false} RunIsSound(p: Protocols, calls: seq<Call>)
    ensures Sound(PerformAll(p, calls))
  {
    if calls != [] {
      RunIsSound(p, calls[..|calls| - 1]);
      CallStaysSound(p, PerformAll(p, calls[..|calls| - 1]), calls[|calls| - 1]);
    }
  }

  /**
   However a tracker is called, if it is Live then it accepted exactly Start(n), the chunks
   0..n-1 and End since its last reset, on one stream, numbered consecutively, and the
   chunks covered exactly the declared backends. It never counts past its declared chunks,
   and it has no next number exactly while it awaits a snapshot.
   */
  lemma LiveMeansCompleteBootstrap(p: Protocols, calls: seq<Call>)
    ensures var x := PerformAll(p, calls);
      && (x.tracker.state.Live? ==> Completed(x.boot, x.tracker.state))
      && (x.tracker.state.Snapshot? ==> x.tracker.state.nextChunk <= x.tracker.state.totalChunks)
      && (x.tracker.next.None? <==> x.tracker.state.AwaitingSnapshot?)
  {
    RunIsSound(p, calls);
  }

  /** Whatever a Live tracker accepts it could also have skipped, to the same effect. */
  lemma ObservedCouldBeSkipped(p: Protocols, t: Tracker, e: Envelope)
    requires t.state.Live? && Observe(p, t, e).Ok?
    ensures Skip(t, e) == Ok(Observe(p, t, e).value.0)
    ensures e.payload.Ordinary()
  {
  }

  function FollowOne(p: Protocols, t: Tracker, e: Envelope, observe: bool): Result<Tracker, ContractError> {
    if observe then
      var next :- Observe(p, t, e);
      Ok(next.0)
    else Skip(t, e)
  }

  /** Following one envelope, either way, moves a Live tracker to the next number and nothing else. */
  lemma FollowMovesOn(p: Protocols, t: Tracker, e: Envelope, observe: bool)
    requires t.state.Live? && FollowOne(p, t, e, observe).Ok?
    ensures t.next == Some(e.messageSeq) && e.messageSeq < U64_MAX
    ensures FollowOne(p, t, e, observe).value == t.(next := Some(e.messageSeq + 1))
  {
  }

  /** A Live subscriber that observes exactly the envelopes its filter selects. */
  function Follow(p: Protocols, t: Tracker, log: seq<Envelope>, observes: seq<bool>): Result<Tracker, ContractError>
    requires |log| == |observes|
    decreases |log|
  {
    if log == [] then Ok(t)
    else
      var next :- FollowOne(p, t, log[0], observes[0]);
      Follow(p, next, log[1..], observes[1..])
  }

  function Everything(n: nat): (f: seq<bool>)
    ensures |f| == n && forall i :: 0 <= i < n ==> f[i]
  {
    seq(n, i => true)
  }

  /** A log that one Live subscriber can observe whole is followed alike under every filter. */
  lemma {:induction false} EveryFilterFollows(p: Protocols, t: Tracker, log: seq<Envelope>, observes: seq<bool>)
    requires |log| == |observes| && t.state.Live?
    requires Follow(p, t, log, Everything(|log|)).Ok?
    ensures Follow(p, t, log, observes) == Follow(p, t, log, Everything(|log|))
    decreases |log|
  {
    if log != [] {
      var next := Observe(p, t, log[0]).value.0;
      assert Everything(|log|)[1..] == Everything(|log[1..]|);
      ObservedCouldBeSkipped(p, t, log[0]);
      EveryFilterFollows(p, next, log[1..], observes[1..]);
    }
  }

  /** Two subscribers that filter one log differently stay at the same next number. */
  lemma {:induction false} FiltersStayInStep(p: Protocols, t: Tracker, u: Tracker, log: seq<Envelope>, f: seq<bool>,
                                             g: seq<bool>)
    requires |log| == |f| == |g|
    requires t.state.Live? && u.state.Live? && t.next == u.next
    requires Follow(p, t, log, f).Ok? && Follow(p, u, log, g).Ok?
    ensures Follow(p, t, log, f).value.next == Follow(p, u, log, g).value.next
    ensures Follow(p, t, log, f).value.state == t.state
    decreases |log|
  {
    if log != [] {
      FollowMovesOn(p, t, log[0], f[0]);
      FollowMovesOn(p, u, log[0], g[0]);
      FiltersStayInStep(p, FollowOne(p, t, log[0], f[0]).value, FollowOne(p, u, log[0], g[0]).value, log[1..], f[1..],
                        g[1..]);
    }
  }

  // What is accepted.

  /** On the tracker's stream, at its number, with a number after it. */
  ghost predicate InTurn(t: Tracker, streamId: string, e: Envelope) {
    e.streamId == streamId && t.next == Some(e.messageSeq) && e.messageSeq < U64_MAX
  }

  ghost predicate AllDeclared(backends: seq<Backend>, declared: set<Backend>) {
    forall i :: 0 <= i < |backends| ==> backends[i] in declared
  }

  ghost predicate LiveFits(p: Protocols, t: Tracker, e: Envelope)
    requires t.state.Live?
  {
    var s := t.state;
    && InTurn(t, s.streamId, e)
    && match e.payload
       case Update(parts) => ValidUpdate(p, parts) && forall i :: 0 <= i < |parts| ==> parts[i].backend in s.declared
       case Heartbeat(chainId, snapshotId, heads) =>
         Distinct(Heads(heads)) && AllDeclared(Heads(heads), s.declared) && chainId == s.chainId && snapshotId == s.snapshotId
       case Progress(chainId, snapshotId, backends, _) =>
         Distinct(backends) && AllDeclared(backends, s.declared) && chainId == s.chainId && snapshotId == s.snapshotId
       case _ => false
  }

  /** A Live tracker accepts exactly the next sound ordinary message of its own stream, and moves by one. */
  lemma LiveAcceptedExactly(p: Protocols, t: Tracker, e: Envelope)
    requires t.state.Live?
    ensures Observe(p, t, e).Ok? <==> LiveFits(p, t, e)
    ensures LiveFits(p, t, e) ==> Observe(p, t, e).value.0 == t.(next := Some(e.messageSeq + 1))
  {
    match e.payload
    case Update(parts) =>
      ValidateUpdateExact(p, parts);
      DeclaredMeansSubset(UpdateBackends(parts), t.state.declared);
      assert AllDeclared(UpdateBackends(parts), t.state.declared)
        <==> forall i :: 0 <= i < |parts| ==> parts[i].backend in t.state.declared;
    case Heartbeat(_, _, heads) =>
      UniqueMeansDistinct(Heads(heads), {});
      DeclaredMeansSubset(Heads(heads), t.state.declared);
    case Progress(_, _, backends, _) =>
      UniqueMeansDistinct(backends, {});
      DeclaredMeansSubset(backends, t.state.declared);
    case _ =>
  }

  /** Skipping asks only for the next ordinary message of the stream. */
  lemma SkippedExactly(t: Tracker, e: Envelope)
    ensures Skip(t, e).Ok? <==> t.state.Live? && InTurn(t, t.state.streamId, e) && e.payload.Ordinary()
    ensures Skip(t, e).Ok? ==> Skip(t, e).value == t.(next := Some(e.messageSeq + 1))
  {
  }

  /** Aligning asks for a Live tracker of the boundary's stream and snapshot, and a number after the boundary. */
  lemma AlignedExactly(t: Tracker, b: Boundary)
    ensures Align(t, b).Ok? <==>
      t.state.Live? && b.streamId == t.state.streamId && b.snapshotId == t.state.snapshotId && b.exclusiveSeq < U64_MAX
    ensures Align(t, b).Ok? ==> Align(t, b).value == t.(next := Some(b.exclusiveSeq + 1))
  {
  }

  ghost predicate SnapshotFits(p: Protocols, t: Tracker, e: Envelope)
    requires t.state.Snapshot?
  {
    var s := t.state;
    && InTurn(t, s.streamId, e)
    && match e.payload
       case SnapshotChunk(snapshotId, index, parts) =>
         && snapshotId == s.snapshotId && index == s.nextChunk < s.totalChunks
         && ValidateSnapshotChunk(p, parts).Ok?
         && forall i :: 0 <= i < |parts| ==> parts[i].backend in s.declared
       case SnapshotEnd(snapshotId) =>
         snapshotId == s.snapshotId && s.nextChunk == s.totalChunks && s.declared <= s.observed
       case _ => false
  }

  /** During a snapshot exactly the next chunk, or the end once all chunks and declared backends were seen, is accepted. */
  lemma SnapshotAcceptedExactly(p: Protocols, t: Tracker, e: Envelope)
    requires t.state.Snapshot?
    ensures Observe(p, t, e).Ok? <==> SnapshotFits(p, t, e)
    ensures SnapshotFits(p, t, e) ==> Observe(p, t, e).value.0.next == Some(e.messageSeq + 1)
  {
    if e.payload.SnapshotChunk? {
      var parts := e.payload.partitions;
      DeclaredMeansSubset(SnapshotBackends(parts), t.state.declared);
      assert AllDeclared(SnapshotBackends(parts), t.state.declared)
        <==> forall i :: 0 <= i < |parts| ==> parts[i].backend in t.state.declared;
    }
  }

  /** A fresh tracker accepts exactly a snapshot start of distinct backends with a number after it. */
  lemma StartAcceptedExactly(p: Protocols, t: Tracker, e: Envelope)
    requires t.state.AwaitingSnapshot?
    ensures Observe(p, t, e).Ok? <==>
      e.payload.SnapshotStart? && Distinct(e.payload.backends) && e.messageSeq < U64_MAX
    ensures Observe(p, t, e).Ok? ==> Observe(p, t, e).value.0.next == Some(e.messageSeq + 1)
  {
    if e.payload.SnapshotStart? {
      UniqueMeansDistinct(e.payload.backends, {});
    }
  }
}
