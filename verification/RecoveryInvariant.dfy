/** What holds of a subscription between any two successfully applied messages. */
module RecoveryInvariant {
  import opened Wrappers
  import opened Wire
  import opened Contracts
  import opened EntryIds
  import opened Trackers
  import opened Replay
  import opened StateStores
  import opened Subscription
  import opened Batches

  // The sweeps over the processors, processor by processor.

  ghost function Observed(codec: Codec, chainId: u64, p: Prepared, m: ReplayMessage): Processed {
    if m.entry.messageSeq <= p.boundary.exclusiveSeq then Processed(p.processor, DONE)
    else ObserveDelta(codec, chainId, p.processor, m.entry, m.envelope)
  }

  lemma {:induction false} ObservePointwise(codec: Codec, chainId: u64, ps: seq<Prepared>, i: nat, m: ReplayMessage)
    requires i <= |ps|
    ensures var r := ObserveFrom(codec, chainId, ps, i, m);
      && |r.processors| == |ps|
      && (forall j :: 0 <= j < i ==> r.processors[j] == ps[j])
      && (r.done.Ok? <==> forall j :: i <= j < |ps| ==> Observed(codec, chainId, ps[j], m).done.Ok?)
      && (r.done.Ok? ==> forall j :: i <= j < |ps| ==>
            r.processors[j] == ps[j].(processor := Observed(codec, chainId, ps[j], m).processor))
    decreases |ps| - i
  {
    if i < |ps| {
      var one := Observed(codec, chainId, ps[i], m);
      var next := ps[i := ps[i].(processor := one.processor)];
      if one.done.Ok? {
        assert m.entry.messageSeq <= ps[i].boundary.exclusiveSeq ==> next == ps;
        assert forall j :: i < j < |ps| ==> next[j] == ps[j];
        ObservePointwise(codec, chainId, next, i + 1, m);
      }
    }
  }

  ghost predicate Named(p: Prepared, m: Manifest) {
    p.processor.backend in m.backends
  }

  ghost function Fenced(p: Prepared, m: Manifest): Prepared {
    if Named(p, m) then p.(processor := p.processor.(store := Fence(p.processor.store))) else p
  }

  ghost predicate Newer(p: Prepared, m: Manifest) {
    Named(p, m) ==> m.targetStateVersion > p.processor.store.content.version
  }

  lemma {:induction false} FencePointwise(ps: seq<Prepared>, i: nat, m: Manifest)
    requires i <= |ps|
    ensures var r := FenceFrom(ps, i, m);
      && |r.processors| == |ps|
      && (forall j :: 0 <= j < i ==> r.processors[j] == ps[j])
      && (r.done.Ok? <==> forall j :: i <= j < |ps| ==> Newer(ps[j], m))
      && (r.done.Ok? ==> forall j :: i <= j < |ps| ==> r.processors[j] == Fenced(ps[j], m))
    decreases |ps| - i
  {
    if i < |ps| && Newer(ps[i], m) {
      var next := ps[i := Fenced(ps[i], m)];
      assert !Named(ps[i], m) ==> next == ps;
      assert forall j :: i < j < |ps| ==> next[j] == ps[j];
      FencePointwise(next, i + 1, m);
    }
  }

  ghost function Swapped(p: Prepared, candidate: Option<Store>, version: u64, complete: Option<u64>): Prepared {
    if candidate.None? then p
    else
      var content := candidate.value.content.(version := version);
      p.(processor := p.processor.(store := Published(content),
                                   head := CommittedHead(p.processor, content.block, complete)))
  }

  lemma {:induction false} PublishPointwise(ps: seq<Prepared>, i: nat, candidates: seq<Option<Store>>, version: u64,
                                            complete: Option<u64>)
    requires i <= |ps| == |candidates|
    ensures var r := PublishFrom(ps, i, candidates, version, complete);
      && |r.processors| == |ps|
      && (forall j :: 0 <= j < i ==> r.processors[j] == ps[j])
      && (r.done.Ok? <==> forall j :: i <= j < |ps| && candidates[j].Some? ==>
            version > ps[j].processor.store.content.version)
      && (r.done.Ok? ==> forall j :: i <= j < |ps| ==>
            r.processors[j] == Swapped(ps[j], candidates[j], version, complete))
    decreases |ps| - i
  {
    if i < |ps| && (candidates[i].Some? ==> version > ps[i].processor.store.content.version) {
      var next := ps[i := Swapped(ps[i], candidates[i], version, complete)];
      assert candidates[i].None? ==> next == ps;
      PublishPointwise(next, i + 1, candidates, version, complete);
    }
  }

  ghost function Aligned(p: Prepared, boundary: Boundary): Prepared
    requires Align(p.processor.tracker, boundary).Ok?
  {
    Prepared(p.processor.(tracker := Align(p.processor.tracker, boundary).value), boundary)
  }

  lemma {:induction false} AlignPointwise(ps: seq<Prepared>, i: nat, boundary: Boundary)
    requires i <= |ps|
    ensures var r := AlignFrom(ps, i, boundary);
      && |r.processors| == |ps|
      && (forall j :: 0 <= j < i ==> r.processors[j] == ps[j])
      && (forall j :: 0 <= j < |ps| ==> r.processors[j].processor.store == ps[j].processor.store)
      && (r.done.Ok? <==> forall j :: i <= j < |ps| ==> Align(ps[j].processor.tracker, boundary).Ok?)
      && (r.done.Ok? ==> forall j :: i <= j < |ps| ==> r.processors[j] == Aligned(ps[j], boundary))
    decreases |ps| - i
  {
    if i < |ps| && Align(ps[i].processor.tracker, boundary).Ok? {
      AlignPointwise(ps[i := Aligned(ps[i], boundary)], i + 1, boundary);
    }
  }

  /** What candidate building yields for one processor. */
  ghost predicate IsCandidate(codec: Codec, chainId: u64, p: Prepared, m: Manifest, snapshot: seq<Envelope>,
                              catchUps: seq<RecoveryCatchUp>, candidate: Option<Store>)
  {
    if Named(p, m) then
      var rebuilt := Rebuild(codec, chainId, p.processor, m.targetStateVersion, snapshot, catchUps);
      rebuilt.Ok? && candidate == Some(rebuilt.value)
    else candidate == None
  }

  lemma {:induction false} CandidatesFromPointwise(codec: Codec, sub: Sub, i: nat, m: Manifest, snapshot: seq<Envelope>,
                                                   catchUps: seq<RecoveryCatchUp>)
    requires i <= |sub.processors|
    ensures var r := CandidatesFrom(codec, sub, i, m, snapshot, catchUps);
      r.Ok? ==> forall j :: 0 <= j < |r.value| ==>
        IsCandidate(codec, sub.chainId, sub.processors[i + j], m, snapshot, catchUps, r.value[j])
    decreases |sub.processors| - i
  {
    var r := CandidatesFrom(codec, sub, i, m, snapshot, catchUps);
    if i < |sub.processors| && r.Ok? {
      CandidatesFromPointwise(codec, sub, i + 1, m, snapshot, catchUps);
      var rest := CandidatesFrom(codec, sub, i + 1, m, snapshot, catchUps).value;
      assert r.value == [r.value[0]] + rest;
      forall j | 0 <= j < |r.value|
        ensures IsCandidate(codec, sub.chainId, sub.processors[i + j], m, snapshot, catchUps, r.value[j])
      {
        if j > 0 {
          var k := j - 1;
          assert IsCandidate(codec, sub.chainId, sub.processors[i + 1 + k], m, snapshot, catchUps, rest[k]);
          assert r.value[j] == rest[k] && sub.processors[i + 1 + k] == sub.processors[i + j];
        }
      }
    }
  }

  lemma CandidatesPointwise(codec: Codec, sub: Sub, m: Manifest, snapshot: seq<Envelope>, catchUps: seq<RecoveryCatchUp>)
    ensures var r := CandidatesFrom(codec, sub, 0, m, snapshot, catchUps);
      r.Ok? ==> forall j :: 0 <= j < |sub.processors| ==>
        IsCandidate(codec, sub.chainId, sub.processors[j], m, snapshot, catchUps, r.value[j])
  {
    CandidatesFromPointwise(codec, sub, 0, m, snapshot, catchUps);
    assert forall j :: 0 <= j < |sub.processors| ==> sub.processors[0 + j] == sub.processors[j];
  }

  // The invariant.

  /** The keys are exactly 0..k-1. */
  ghost predicate KeysBelow<T>(m: map<u32, T>, k: nat) {
    forall i: u32 :: i in m <==> i < k
  }

  /** The sequence number of the open recovery's Start. */
  function StartSeq(m: Manifest): int {
    m.commitWatermark - m.chunkCount - m.bufferACount - 1
  }

  ghost predicate SameStream(a: Boundary, b: Boundary) {
    a.streamKey == b.streamKey && a.streamId == b.streamId && a.snapshotId == b.snapshotId
    && a.generation == b.generation
  }

  /** Every tracker is Live on the subscription's stream and expects the same number. */
  ghost predicate TrackersAt(sub: Sub, next: u64) {
    forall i :: 0 <= i < |sub.processors| ==>
      var t := sub.processors[i].processor.tracker;
      && t.state.Live?
      && t.state.streamId == sub.boundary.streamId
      && t.state.snapshotId == sub.boundary.snapshotId
      && t.next == Some(next)
  }

  /** Fragments held so far: chunks 0..k-1, all of them before any catch-up, and no extras. */
  ghost predicate AssemblyInOrder(a: Assembly) {
    && |a.chunks| <= a.manifest.chunkCount
    && |a.catchUps| <= a.manifest.bufferACount
    && KeysBelow(a.chunks, |a.chunks|)
    && KeysBelow(a.catchUps, |a.catchUps|)
    && (a.catchUps != map[] ==> |a.chunks| == a.manifest.chunkCount)
  }

  /** The checkpoint counts the Start and every fragment held. */
  ghost predicate AssemblyAt(a: Assembly, c: Checkpoint) {
    && ValidManifest(a.manifest)
    && StartSeq(a.manifest) >= 0
    && AssemblyInOrder(a)
    && c.lastSeq == StartSeq(a.manifest) + |a.chunks| + |a.catchUps|
  }

  /** The named stores are fenced and still older than the recovery's target version. */
  ghost predicate NamedFenced(sub: Sub, m: Manifest) {
    forall i :: 0 <= i < |sub.processors| && Named(sub.processors[i], m) ==>
      && m.targetStateVersion > sub.processors[i].processor.store.content.version
      && !sub.processors[i].processor.store.requestsAllowed
  }

  /** No processor's boundary is past the checkpoint, and all speak of one stream. */
  ghost predicate Base(sub: Sub, c: Checkpoint) {
    && ValidBoundary(sub.boundary)
    && Printed(c)
    && SameStream(sub.boundary, c.boundary)
    && sub.boundary.exclusiveSeq <= c.lastSeq
    && sub.chainId == c.chainId
    && forall i :: 0 <= i < |sub.processors| ==> sub.processors[i].boundary == sub.boundary
  }

  /**
   `next` is the number every tracker expects: the one after the checkpoint outside a
   recovery, and inside one the number of the Start that opened it (of the first Start, when
   later ones superseded it).
   */
  ghost predicate Inv(sub: Sub, c: Checkpoint, next: u64) {
    && Base(sub, c)
    && TrackersAt(sub, next)
    && match sub.recovery
       case None => next == c.lastSeq + 1
       case Some(a) => AssemblyAt(a, c) && next <= StartSeq(a.manifest) && NamedFenced(sub, a.manifest)
  }

  ghost function NextAfter(sub: Sub, m: ReplayMessage, next: u64): nat {
    if m.envelope.payload.Commit? || (sub.recovery.None? && m.envelope.payload.Ordinary())
    then m.entry.messageSeq + 1 else next
  }

  /** Reporting a replay checkpoint changes nothing the invariant speaks of. */
  lemma MarkingKeepsInv(sub: Sub, c: Checkpoint, next: u64)
    requires Inv(sub, c, next)
    ensures Inv(sub.(processors := MarkReplay(sub.processors, c)), c, next)
    ensures forall i :: 0 <= i < |sub.processors| ==>
      MarkReplay(sub.processors, c)[i].processor.reported == c.entryId
  {
    var marked := MarkReplay(sub.processors, c);
    assert forall i :: 0 <= i < |sub.processors| ==> marked[i].processor.tracker == sub.processors[i].processor.tracker;
    if sub.recovery.Some? {
      assert forall i :: 0 <= i < |sub.processors| ==>
        (Named(marked[i], sub.recovery.value.manifest) <==> Named(sub.processors[i], sub.recovery.value.manifest));
    }
  }

  // Ordinary deltas.

  lemma {:induction false} PushKeepsTracker(codec: Codec, p: Processor, messages: seq<ProtocolMessage>)
    ensures var q := PushRaw(codec, p, messages).processor;
      q.tracker == p.tracker && q.backend == p.backend && q.logical == p.logical
    decreases |messages|
  {
    if messages != [] {
      PushKeepsTracker(codec, p.(raw := p.raw + [messages[0]]), messages[1..]);
    }
  }

  /** A Live processor that takes a delta moves its tracker by one and nothing else of it. */
  lemma DeltaAdvancesTracker(codec: Codec, chainId: u64, p: Processor, entry: StreamEntry, e: Envelope)
    requires p.tracker.state.Live? && ObserveDelta(codec, chainId, p, entry, e).done.Ok?
    ensures p.tracker.next == Some(e.messageSeq) && e.messageSeq < U64_MAX && e.payload.Ordinary()
    ensures var q := ObserveDelta(codec, chainId, p, entry, e).processor;
      q == p.(tracker := p.tracker.(next := Some(e.messageSeq + 1)), store := q.store, head := q.head)
  {
  }

  /** One processor past an ordinary message: its tracker one on, its boundary as it was. */
  ghost predicate MovedOn(before: Prepared, after: Prepared, seqNo: u64) {
    && seqNo < U64_MAX
    && after.boundary == before.boundary
    && after.processor.backend == before.processor.backend
    && after.processor.tracker == before.processor.tracker.(next := Some(seqNo + 1))
  }

  lemma OrdinaryMoves(codec: Codec, sub: Sub, c: Checkpoint, next: u64, m: ReplayMessage, i: nat)
    requires Inv(sub, c, next) && Follows(c, m) && sub.recovery.None? && i < |sub.processors|
    requires Observed(codec, sub.chainId, sub.processors[i], m).done.Ok?
    ensures var p := sub.processors[i];
      MovedOn(p, p.(processor := Observed(codec, sub.chainId, p, m).processor), m.entry.messageSeq)
  {
    assert [m][0] == m;
    var p := sub.processors[i];
    assert m.entry.messageSeq == next > p.boundary.exclusiveSeq;
    DeltaAdvancesTracker(codec, sub.chainId, p.processor, m.entry, m.envelope);
  }

  lemma OrdinaryMovesAll(codec: Codec, sub: Sub, c: Checkpoint, next: u64, m: ReplayMessage)
    requires Inv(sub, c, next) && Follows(c, m) && sub.recovery.None?
    requires ObserveFrom(codec, sub.chainId, sub.processors, 0, m).done.Ok?
    ensures var ps := ObserveFrom(codec, sub.chainId, sub.processors, 0, m).processors;
      |ps| == |sub.processors|
      && forall i :: 0 <= i < |ps| ==> MovedOn(sub.processors[i], ps[i], m.entry.messageSeq)
  {
    ObservePointwise(codec, sub.chainId, sub.processors, 0, m);
    var ps := ObserveFrom(codec, sub.chainId, sub.processors, 0, m).processors;
    forall i | 0 <= i < |ps| ensures MovedOn(sub.processors[i], ps[i], m.entry.messageSeq) {
      OrdinaryMoves(codec, sub, c, next, m, i);
    }
  }

  lemma MovedOnKeepsInv(sub: Sub, c: Checkpoint, next: u64, ps: seq<Prepared>, m: ReplayMessage)
    requires Inv(sub, c, next) && Follows(c, m) && sub.recovery.None? && m.entry.messageSeq < U64_MAX
    requires |ps| == |sub.processors|
    requires forall i :: 0 <= i < |ps| ==> MovedOn(sub.processors[i], ps[i], m.entry.messageSeq)
    ensures Inv(sub.(processors := ps), m.checkpointAfter, m.entry.messageSeq + 1)
  {
    assert [m][0] == m;
  }

  lemma OrdinaryKeepsInv(codec: Codec, sub: Sub, c: Checkpoint, next: u64, m: ReplayMessage)
    requires Inv(sub, c, next) && Follows(c, m) && sub.recovery.None?
    requires ApplyOne(codec, sub, m).done.Ok? && m.envelope.payload.Ordinary()
    requires m.entry.messageSeq < U64_MAX
    ensures Inv(ApplyOne(codec, sub, m).sub, m.checkpointAfter, m.entry.messageSeq + 1)
  {
    OrdinaryMovesAll(codec, sub, c, next, m);
    MovedOnKeepsInv(sub, c, next, ObserveFrom(codec, sub.chainId, sub.processors, 0, m).processors, m);
  }

  // Recovery messages.

  lemma StartKeepsInv(sub: Sub, c: Checkpoint, next: u64, m: ReplayMessage)
    requires Inv(sub, c, next) && Follows(c, m) && m.envelope.payload.Start?
    requires ApplyStart(sub, m.entry.messageSeq, m.envelope.payload.manifest).done.Ok?
    ensures var s := ApplyStart(sub, m.entry.messageSeq, m.envelope.payload.manifest).sub;
      Inv(s, m.checkpointAfter, next)
  {
    assert [m][0] == m;
    var man := m.envelope.payload.manifest;
    FencePointwise(sub.processors, 0, man);
    var s := ApplyStart(sub, m.entry.messageSeq, man).sub;
    assert forall i :: 0 <= i < |sub.processors| ==> Newer(sub.processors[i], man);
    assert Base(s, m.checkpointAfter);
    assert NamedFenced(s, man);
    assert AssemblyAt(s.recovery.value, m.checkpointAfter);
  }

  /**
   The trackers expect the accepted Start's own number exactly when no recovery was open: a
   Start that supersedes another leaves them waiting at the earlier number.
   */
  lemma StartExpectation(sub: Sub, c: Checkpoint, next: u64, m: ReplayMessage)
    requires Inv(sub, c, next) && Follows(c, m) && m.envelope.payload.Start?
    requires ApplyStart(sub, m.entry.messageSeq, m.envelope.payload.manifest).done.Ok?
    ensures StartSeq(m.envelope.payload.manifest) == m.entry.messageSeq
    ensures TrackersAt(ApplyStart(sub, m.entry.messageSeq, m.envelope.payload.manifest).sub, next)
    ensures next == StartSeq(m.envelope.payload.manifest) <==> sub.recovery.None?
  {
    assert [m][0] == m;
    StartKeepsInv(sub, c, next, m);
  }

  lemma AssemblyGrows(sub: Sub, c: Checkpoint, next: u64, m: ReplayMessage, b: Assembly)
    requires Inv(sub, c, next) && Follows(c, m) && sub.recovery.Some?
    requires b.manifest == sub.recovery.value.manifest && AssemblyInOrder(b)
    requires |b.chunks| + |b.catchUps| == |sub.recovery.value.chunks| + |sub.recovery.value.catchUps| + 1
    ensures Inv(sub.(recovery := Some(b)), m.checkpointAfter, next)
  {
    assert [m][0] == m;
    assert Base(sub.(recovery := Some(b)), m.checkpointAfter);
  }

  lemma ChunkKeepsInv(codec: Codec, sub: Sub, c: Checkpoint, next: u64, m: ReplayMessage)
    requires Inv(sub, c, next) && Follows(c, m) && m.envelope.payload.Chunk?
    requires ApplyChunk(codec, sub, m.entry, m.envelope.payload.chunk).done.Ok?
    ensures var s := ApplyChunk(codec, sub, m.entry, m.envelope.payload.chunk).sub;
      Inv(s, m.checkpointAfter, next)
  {
    assert [m][0] == m;
    var a := sub.recovery.value;
    var k := |a.chunks|;
    var b := ApplyChunk(codec, sub, m.entry, m.envelope.payload.chunk).sub.recovery.value;
    assert k !in a.chunks;
    assert |b.chunks| == k + 1 && KeysBelow(b.chunks, k + 1);
    AssemblyGrows(sub, c, next, m, b);
  }

  lemma CatchUpKeepsInv(codec: Codec, sub: Sub, c: Checkpoint, next: u64, m: ReplayMessage)
    requires Inv(sub, c, next) && Follows(c, m) && m.envelope.payload.CatchUp?
    requires ApplyCatchUp(codec, sub, m.envelope.payload.catchUp).done.Ok?
    ensures var s := ApplyCatchUp(codec, sub, m.envelope.payload.catchUp).sub;
      Inv(s, m.checkpointAfter, next)
  {
    assert [m][0] == m;
    var a := sub.recovery.value;
    var k := |a.catchUps|;
    var b := ApplyCatchUp(codec, sub, m.envelope.payload.catchUp).sub.recovery.value;
    assert k !in a.catchUps;
    assert |b.catchUps| == k + 1 && KeysBelow(b.catchUps, k + 1);
    AssemblyGrows(sub, c, next, m, b);
  }

  /**
   On a reachable state a commit that lands on the declared watermark finds every declared
   fragment present: the completeness check can no longer fail there.
   */
  lemma WatermarkMeansComplete(sub: Sub, c: Checkpoint, next: u64, m: ReplayMessage)
    requires Inv(sub, c, next) && sub.recovery.Some? && Follows(c, m)
    requires m.entry.messageSeq == sub.recovery.value.manifest.commitWatermark
    ensures |sub.recovery.value.chunks| == sub.recovery.value.manifest.chunkCount
    ensures |sub.recovery.value.catchUps| == sub.recovery.value.manifest.bufferACount
    ensures KeysBelow(sub.recovery.value.chunks, sub.recovery.value.manifest.chunkCount)
    ensures KeysBelow(sub.recovery.value.catchUps, sub.recovery.value.manifest.bufferACount)
  {
    assert [m][0] == m;
  }

  // The commit.

  /** Every check and every candidate of a commit succeeds. */
  ghost predicate CommitReady(codec: Codec, sub: Sub, seqNo: u64, c: RecoveryCommit) {
    && ValidCommit(c)
    && sub.recovery.Some?
    && CheckCommit(codec, sub, sub.recovery.value, seqNo, c).Ok?
    && CandidatesFrom(codec, sub, 0, sub.recovery.value.manifest,
                      CheckCommit(codec, sub, sub.recovery.value, seqNo, c).value,
                      ValuesInOrder(sub.recovery.value.catchUps)).Ok?
  }

  ghost function CommitCandidates(codec: Codec, sub: Sub, seqNo: u64, c: RecoveryCommit): (cs: seq<Option<Store>>)
    requires CommitReady(codec, sub, seqNo, c)
    ensures |cs| == |sub.processors|
  {
    var a := sub.recovery.value;
    CandidatesFrom(codec, sub, 0, a.manifest, CheckCommit(codec, sub, a, seqNo, c).value, ValuesInOrder(a.catchUps)).value
  }

  ghost function CommitHead(codec: Codec, sub: Sub, seqNo: u64, c: RecoveryCommit): Option<u64>
    requires CommitReady(codec, sub, seqNo, c)
  {
    var a := sub.recovery.value;
    CommittedComplete(CheckCommit(codec, sub, a, seqNo, c).value, ValuesInOrder(a.catchUps))
  }

  lemma CommitUnready(codec: Codec, sub: Sub, m: ReplayMessage)
    requires m.envelope.payload.Commit?
    requires !CommitReady(codec, sub, m.entry.messageSeq, m.envelope.payload.commit)
    ensures ApplyOne(codec, sub, m).done.Err?
    ensures ApplyOne(codec, sub, m).sub.processors == sub.processors
  {
  }

  lemma PublishOnReachable(codec: Codec, sub: Sub, c: Checkpoint, next: u64, seqNo: u64, commit: RecoveryCommit)
    requires Inv(sub, c, next) && CommitReady(codec, sub, seqNo, commit)
    ensures var m := sub.recovery.value.manifest;
      var cs := CommitCandidates(codec, sub, seqNo, commit);
      var complete := CommitHead(codec, sub, seqNo, commit);
      var r := PublishFrom(sub.processors, 0, cs, m.targetStateVersion, complete);
      && r.done.Ok?
      && |r.processors| == |sub.processors|
      && forall i :: 0 <= i < |sub.processors| ==>
           && (cs[i].Some? <==> Named(sub.processors[i], m))
           && r.processors[i] == Swapped(sub.processors[i], cs[i], m.targetStateVersion, complete)
  {
    CandidatesNewer(codec, sub, c, next, seqNo, commit);
    PublishPointwise(sub.processors, 0, CommitCandidates(codec, sub, seqNo, commit),
                     sub.recovery.value.manifest.targetStateVersion, CommitHead(codec, sub, seqNo, commit));
  }

  /** The processor a successful commit leaves at index `i`. */
  ghost function CommittedAt(codec: Codec, sub: Sub, seqNo: u64, c: RecoveryCommit, i: nat): Prepared
    requires CommitReady(codec, sub, seqNo, c) && i < |sub.processors| && seqNo < U64_MAX
  {
    var m := sub.recovery.value.manifest;
    var p := Swapped(sub.processors[i], CommitCandidates(codec, sub, seqNo, c)[i], m.targetStateVersion,
                     CommitHead(codec, sub, seqNo, c));
    Prepared(p.processor.(tracker := p.processor.tracker.(next := Some(seqNo + 1))),
             CommitBoundary(sub.boundary, seqNo, m.targetStateVersion))
  }

  /** The subscription a successful commit leaves. */
  ghost predicate Committed(codec: Codec, sub: Sub, seqNo: u64, c: RecoveryCommit, after: Sub)
    requires CommitReady(codec, sub, seqNo, c) && seqNo < U64_MAX
  {
    && after.recovery.None?
    && after.chainId == sub.chainId
    && after.boundary == CommitBoundary(sub.boundary, seqNo, sub.recovery.value.manifest.targetStateVersion)
    && |after.processors| == |sub.processors|
    && forall i :: 0 <= i < |sub.processors| ==> after.processors[i] == CommittedAt(codec, sub, seqNo, c, i)
  }

  /** The swap of any complete set of newer candidates succeeds, and so does the alignment. */
  lemma SwapSucceeds(sub: Sub, next: u64, seqNo: u64, man: Manifest, cs: seq<Option<Store>>, complete: Option<u64>)
    requires TrackersAt(sub, next) && seqNo < U64_MAX && |cs| == |sub.processors|
    requires forall i :: 0 <= i < |cs| && cs[i].Some? ==>
      man.targetStateVersion > sub.processors[i].processor.store.content.version
    ensures var r := PublishCommit(sub, seqNo, man, cs, complete);
      && r.done.Ok?
      && r.sub.(processors := []) ==
           sub.(processors := [], boundary := CommitBoundary(sub.boundary, seqNo, man.targetStateVersion))
      && |r.sub.processors| == |sub.processors|
      && forall i :: 0 <= i < |sub.processors| ==>
           var p := Swapped(sub.processors[i], cs[i], man.targetStateVersion, complete);
           r.sub.processors[i] == Prepared(p.processor.(tracker := p.processor.tracker.(next := Some(seqNo + 1))),
                                           CommitBoundary(sub.boundary, seqNo, man.targetStateVersion))
  {
    PublishPointwise(sub.processors, 0, cs, man.targetStateVersion, complete);
    var published := PublishFrom(sub.processors, 0, cs, man.targetStateVersion, complete).processors;
    AlignPointwise(published, 0, CommitBoundary(sub.boundary, seqNo, man.targetStateVersion));
  }

  lemma CandidatesNewer(codec: Codec, sub: Sub, c: Checkpoint, next: u64, seqNo: u64, commit: RecoveryCommit)
    requires Inv(sub, c, next) && CommitReady(codec, sub, seqNo, commit)
    ensures var m, cs := sub.recovery.value.manifest, CommitCandidates(codec, sub, seqNo, commit);
      forall i :: 0 <= i < |sub.processors| ==>
        && (cs[i].Some? <==> Named(sub.processors[i], m))
        && (cs[i].Some? ==> m.targetStateVersion > sub.processors[i].processor.store.content.version)
  {
    var a := sub.recovery.value;
    CandidatesPointwise(codec, sub, a.manifest, CheckCommit(codec, sub, a, seqNo, commit).value,
                        ValuesInOrder(a.catchUps));
  }

  lemma PublishCommitSucceeds(codec: Codec, sub: Sub, c: Checkpoint, next: u64, seqNo: u64, commit: RecoveryCommit)
    requires Inv(sub, c, next) && CommitReady(codec, sub, seqNo, commit) && seqNo < U64_MAX
    ensures var r := PublishCommit(sub.(recovery := None), seqNo, sub.recovery.value.manifest,
                                   CommitCandidates(codec, sub, seqNo, commit), CommitHead(codec, sub, seqNo, commit));
      r.done.Ok? && Committed(codec, sub, seqNo, commit, r.sub)
  {
    CandidatesNewer(codec, sub, c, next, seqNo, commit);
    SwapSucceeds(sub.(recovery := None), next, seqNo, sub.recovery.value.manifest,
                 CommitCandidates(codec, sub, seqNo, commit), CommitHead(codec, sub, seqNo, commit));
  }

  /** A ready commit runs straight into the swap. */
  lemma ReadyCommitPublishes(codec: Codec, sub: Sub, m: ReplayMessage)
    requires m.envelope.payload.Commit?
    requires CommitReady(codec, sub, m.entry.messageSeq, m.envelope.payload.commit)
    ensures var seqNo, commit := m.entry.messageSeq, m.envelope.payload.commit;
      ApplyOne(codec, sub, m) ==
      PublishCommit(sub.(recovery := None), seqNo, sub.recovery.value.manifest,
                    CommitCandidates(codec, sub, seqNo, commit), CommitHead(codec, sub, seqNo, commit))
  {
  }

  lemma ReadyCommitSucceeds(codec: Codec, sub: Sub, c: Checkpoint, next: u64, m: ReplayMessage)
    requires Inv(sub, c, next) && m.envelope.payload.Commit?
    requires CommitReady(codec, sub, m.entry.messageSeq, m.envelope.payload.commit)
    requires m.entry.messageSeq < U64_MAX
    ensures ApplyOne(codec, sub, m).done.Ok?
    ensures Committed(codec, sub, m.entry.messageSeq, m.envelope.payload.commit, ApplyOne(codec, sub, m).sub)
  {
    ReadyCommitPublishes(codec, sub, m);
    PublishCommitSucceeds(codec, sub, c, next, m.entry.messageSeq, m.envelope.payload.commit);
  }

  lemma CommitKeepsInv(codec: Codec, sub: Sub, c: Checkpoint, next: u64, m: ReplayMessage)
    requires Inv(sub, c, next) && Follows(c, m) && m.envelope.payload.Commit?
    requires CommitReady(codec, sub, m.entry.messageSeq, m.envelope.payload.commit)
    requires m.entry.messageSeq < U64_MAX
    ensures var s := ApplyOne(codec, sub, m).sub;
      Inv(s, m.checkpointAfter, m.entry.messageSeq + 1)
  {
    assert [m][0] == m;
    ReadyCommitSucceeds(codec, sub, c, next, m);
  }
}
