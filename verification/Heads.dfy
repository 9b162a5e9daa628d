/** Which block each backend's reported head moves to. */
module Heads {
  import opened Wrappers
  import opened Wire
  import opened Contracts
  import opened Completeness
  import opened Trackers
  import opened Replay
  import opened StateStores
  import opened Subscription
  import opened Batches
  import opened RecoveryInvariant
  import opened RecoveryCommit
  import opened RecoveryHeads
  import opened RecoveryRuns
  import opened Fragments
  import opened Views
  import opened PoolRuns

  // One update.

  /**
   An RFQ head takes the block whatever it is, a VM head never falls, and a native head moves
   only to a block the partition carries whole.
   */
  ghost function HeadAfter(b: Backend, head: u64, part: UpdatePartition): u64 {
    match b
    case Rfq => part.blockNumber
    case Vm => Max(head, part.blockNumber)
    case Native =>
      if Whole(part.blockNumber, part.messages, part.syncStatuses) then Max(head, part.blockNumber) else head
  }

  lemma AppliedHead(codec: Codec, p: Processor, parts: seq<UpdatePartition>, version: Option<u64>)
    requires OncePerBackend(parts) && ApplyLive(codec, p, parts, version).done.Ok?
    ensures var part := PartFor(parts, p.backend);
      ApplyLive(codec, p, parts, version).processor.head ==
      if part.None? then p.head else HeadAfter(p.backend, p.head, part.value)
  {
    DecodedOnce(codec, p.backend, parts);
    var part := PartFor(parts, p.backend);
    if part.Some? {
      CompleteBlockExact(part.value.blockNumber, part.value.messages, part.value.syncStatuses);
    }
  }

  /** A delta moves the head only as an update partition for the backend says. */
  lemma DeltaMovesHead(codec: Codec, chainId: u64, live: Processor, m: ReplayMessage)
    requires live.tracker.state.Live? && ObserveDelta(codec, chainId, live, m.entry, m.envelope).done.Ok?
    ensures var after := ObserveDelta(codec, chainId, live, m.entry, m.envelope).processor;
      after.head ==
      if m.envelope.payload.Update? && live.backend in m.entry.scope && PartFor(m.envelope.payload.update, live.backend).Some?
      then HeadAfter(live.backend, live.head, PartFor(m.envelope.payload.update, live.backend).value)
      else live.head
  {
    if m.envelope.payload.Update? && live.backend in m.entry.scope {
      UpdateObserved(codec, chainId, live, m.envelope, Some(m.entry.stateVersion));
      var seen := live.(tracker := ObserveDelta(codec, chainId, live, m.entry, m.envelope).processor.tracker);
      AppliedHead(codec, seen, m.envelope.payload.update, Some(m.entry.stateVersion));
    }
  }

  // A commit.

  /** The head after a stretch that shows some blocks whole: the largest of them, if it is higher. */
  ghost predicate Tops(before: u64, after: u64, shown: int -> bool) {
    && after >= before
    && (forall n: int :: shown(n) ==> n <= after)
    && (after == before || shown(after))
  }

  /** What a commit makes of the head of a backend it names. */
  ghost predicate CommitHeadMoves(before: Processor, after: Processor, snapshot: seq<Envelope>, catchUps: seq<RecoveryCatchUp>) {
    match before.logical
    case Rfq => after.head == after.store.content.block
    case Vm => after.head == Max(before.head, after.store.content.block)
    case Native => Tops(before.head, after.head, n => SnapshotCarries(snapshot, n) || CatchUpsCarry(catchUps, n))
  }

  lemma SwappedHead(p: Prepared, candidate: Store, version: u64, snapshot: seq<Envelope>, catchUps: seq<RecoveryCatchUp>)
    ensures CommitHeadMoves(p.processor, Swapped(p, Some(candidate), version, CommittedComplete(snapshot, catchUps)).processor,
                            snapshot, catchUps)
  {
    CommitReportsLargestWholeBlock(snapshot, catchUps);
  }

  lemma CommitMovesHeads(codec: Codec, sub: Sub, c: Checkpoint, next: u64, m: ReplayMessage, i: nat)
    requires Inv(sub, c, next) && Follows(c, m) && i < |sub.processors| && m.envelope.payload.Commit?
    requires ApplyOne(codec, sub, m).done.Ok?
    ensures sub.recovery.Some? && i < |ApplyOne(codec, sub, m).sub.processors|
    ensures var a, commit := sub.recovery.value, m.envelope.payload.commit;
      var before, after := sub.processors[i].processor, ApplyOne(codec, sub, m).sub.processors[i].processor;
      && commit.backends == a.manifest.backends
      && CheckCommit(codec, sub, a, m.entry.messageSeq, commit).Ok?
      && if before.backend in commit.backends
         then CommitHeadMoves(before, after, CheckCommit(codec, sub, a, m.entry.messageSeq, commit).value,
                              ValuesInOrder(a.catchUps))
         else after.head == before.head
  {
    var seqNo, commit := m.entry.messageSeq, m.envelope.payload.commit;
    CommitStep(codec, sub, c, next, m);
    ReadyCommitSucceeds(codec, sub, c, next, m);
    CommittedHeads(codec, sub, c, next, seqNo, commit, ApplyOne(codec, sub, m).sub, i);
  }

  lemma CommittedHeads(codec: Codec, sub: Sub, c: Checkpoint, next: u64, seqNo: u64, commit: Wire.RecoveryCommit,
                       after: Sub, i: nat)
    requires Inv(sub, c, next) && CommitReady(codec, sub, seqNo, commit) && seqNo < U64_MAX && i < |sub.processors|
    requires Committed(codec, sub, seqNo, commit, after)
    ensures commit.backends == sub.recovery.value.manifest.backends
    ensures var a := sub.recovery.value;
      var was, now := sub.processors[i].processor, after.processors[i].processor;
      if was.backend in commit.backends
      then CommitHeadMoves(was, now, CheckCommit(codec, sub, a, seqNo, commit).value, ValuesInOrder(a.catchUps))
      else now.head == was.head
  {
    var a := sub.recovery.value;
    CommitCheckedExactly(codec, sub, a, seqNo, commit);
    CandidatesNewer(codec, sub, c, next, seqNo, commit);
    var candidate := CommitCandidates(codec, sub, seqNo, commit)[i];
    if candidate.Some? {
      SwappedHead(sub.processors[i], candidate.value, a.manifest.targetStateVersion,
                  CheckCommit(codec, sub, a, seqNo, commit).value, ValuesInOrder(a.catchUps));
    }
  }

  // The native head over a run.

  /** The message shows the native backend block `n` whole, after the messages `before`. */
  ghost predicate ShownBy(codec: Codec, before: seq<ReplayMessage>, m: ReplayMessage, n: int) {
    var since := before[LastStart(before)..];
    || (m.envelope.payload.Update? && Native in m.entry.scope && PartShows(PartFor(m.envelope.payload.update, Native), n))
    || (CommitsFor(m, Native) && codec.replacement(TextOf(since)).Some?
        && (SnapshotCarries(codec.replacement(TextOf(since)).value, n) || CatchUpsCarry(CatchUpsIn(since), n)))
  }

  ghost predicate PartShows(part: Option<UpdatePartition>, n: int) {
    && part.Some? && part.value.blockNumber == n
    && Whole(part.value.blockNumber, part.value.messages, part.value.syncStatuses)
  }

  ghost predicate ShownIn(codec: Codec, ms: seq<ReplayMessage>, n: int) {
    exists j :: 0 <= j < |ms| && ShownBy(codec, ms[..j], ms[j], n)
  }

  lemma ShownGrows(codec: Codec, ms: seq<ReplayMessage>, m: ReplayMessage, n: int)
    ensures ShownIn(codec, ms + [m], n) <==> ShownIn(codec, ms, n) || ShownBy(codec, ms, m, n)
  {
    var all := ms + [m];
    assert all[..|ms|] == ms && all[|ms|] == m;
    if j :| 0 <= j < |all| && ShownBy(codec, all[..j], all[j], n) {
      assert j < |ms| ==> all[..j] == ms[..j] && all[j] == ms[j];
    }
    if j :| 0 <= j < |ms| && ShownBy(codec, ms[..j], ms[j], n) {
      assert all[..j] == ms[..j] && all[j] == ms[j];
    }
  }

  ghost predicate HeadTold(codec: Codec, origin: u64, ms: seq<ReplayMessage>, head: u64) {
    Tops(origin, head, n => ShownIn(codec, ms, n))
  }

  lemma HeadStepTold(codec: Codec, origin: u64, ms: seq<ReplayMessage>, m: ReplayMessage, before: u64, after: u64)
    requires HeadTold(codec, origin, ms, before) && Tops(before, after, n => ShownBy(codec, ms, m, n))
    ensures HeadTold(codec, origin, ms + [m], after)
  {
    forall n: int ensures ShownIn(codec, ms + [m], n) <==> ShownIn(codec, ms, n) || ShownBy(codec, ms, m, n) {
      ShownGrows(codec, ms, m, n);
    }
    var was, now, all := (n => ShownIn(codec, ms, n)), (n => ShownBy(codec, ms, m, n)), (n => ShownIn(codec, ms + [m], n));
    forall n: int | all(n) ensures n <= after {
      assert was(n) || now(n);
    }
    assert after == origin || all(after) by {
      assert after == before || now(after);
      assert before == origin || was(before);
    }
  }

  /** A native backend, in its live and its logical role. */
  predicate IsNative(p: Processor) {
    p.backend == Native && p.logical == Native
  }

  ghost predicate HeadsTold(codec: Codec, origin: Sub, ms: seq<ReplayMessage>, sub: Sub) {
    && |sub.processors| == |origin.processors|
    && forall i :: 0 <= i < |sub.processors| && IsNative(origin.processors[i].processor) ==>
         HeadTold(codec, origin.processors[i].processor.head, ms, sub.processors[i].processor.head)
  }

  lemma DeltaHeadTops(codec: Codec, chainId: u64, ms: seq<ReplayMessage>, live: Processor, m: ReplayMessage)
    requires IsNative(live) && live.tracker.state.Live?
    requires ObserveDelta(codec, chainId, live, m.entry, m.envelope).done.Ok?
    ensures Tops(live.head, ObserveDelta(codec, chainId, live, m.entry, m.envelope).processor.head, n => ShownBy(codec, ms, m, n))
  {
    DeltaMovesHead(codec, chainId, live, m);
    DeltaAdvancesTracker(codec, chainId, live, m.entry, m.envelope);
  }

  lemma CommitHeadTops(codec: Codec, origin: Sub, ms: seq<ReplayMessage>, sub: Sub, c: Checkpoint, next: u64, m: ReplayMessage,
                       i: nat)
    requires Tells(codec, origin, ms, sub) && Inv(sub, c, next) && Follows(c, m) && i < |sub.processors|
    requires m.envelope.payload.Commit? && ApplyOne(codec, sub, m).done.Ok? && IsNative(sub.processors[i].processor)
    ensures i < |ApplyOne(codec, sub, m).sub.processors|
    ensures Tops(sub.processors[i].processor.head, ApplyOne(codec, sub, m).sub.processors[i].processor.head,
                 n => ShownBy(codec, ms, m, n))
  {
    CommitMovesHeads(codec, sub, c, next, m, i);
    var a, commit := sub.recovery.value, m.envelope.payload.commit;
    var snapshot := CheckCommit(codec, sub, a, m.entry.messageSeq, commit).value;
    CommitShows(codec, ms, m, a, snapshot, sub, m.entry.messageSeq);
    CommitTops(codec, ms, m, snapshot, ValuesInOrder(a.catchUps), sub.processors[i].processor,
               ApplyOne(codec, sub, m).sub.processors[i].processor);
  }

  lemma CommitTops(codec: Codec, ms: seq<ReplayMessage>, m: ReplayMessage, snapshot: seq<Envelope>,
                   catchUps: seq<RecoveryCatchUp>, before: Processor, after: Processor)
    requires IsNative(before) && m.envelope.payload.Commit?
    requires (forall n: int :: ShownBy(codec, ms, m, n) <==>
                CommitsFor(m, Native) && (SnapshotCarries(snapshot, n) || CatchUpsCarry(catchUps, n)))
    requires if CommitsFor(m, Native) then CommitHeadMoves(before, after, snapshot, catchUps) else after.head == before.head
    ensures Tops(before.head, after.head, n => ShownBy(codec, ms, m, n))
  {
    var shown := (n: int) => ShownBy(codec, ms, m, n);
    if CommitsFor(m, Native) {
      TopsSame(before.head, after.head, n => SnapshotCarries(snapshot, n) || CatchUpsCarry(catchUps, n), shown);
    } else {
      TopsNothing(before.head, shown);
    }
  }

  lemma TopsSame(before: u64, after: u64, p: int -> bool, q: int -> bool)
    requires Tops(before, after, p) && forall n: int :: p(n) <==> q(n)
    ensures Tops(before, after, q)
  {
  }

  lemma TopsNothing(head: u64, shown: int -> bool)
    requires forall n: int :: !shown(n)
    ensures Tops(head, head, shown)
  {
  }

  /** What a checked commit shows is what its replacement and catch-ups carry. */
  lemma CommitShows(codec: Codec, ms: seq<ReplayMessage>, m: ReplayMessage, a: Assembly, snapshot: seq<Envelope>, sub: Sub,
                    seqNo: u64)
    requires m.envelope.payload.Commit? && HoldsFragments(a, ms)
    requires CheckCommit(codec, sub, a, seqNo, m.envelope.payload.commit) == Ok(snapshot)
    ensures forall n: int :: ShownBy(codec, ms, m, n) <==>
      CommitsFor(m, Native) && (SnapshotCarries(snapshot, n) || CatchUpsCarry(ValuesInOrder(a.catchUps), n))
  {
    CommitCheckedExactly(codec, sub, a, seqNo, m.envelope.payload.commit);
    JoinedText(ms[LastStart(ms)..]);
  }

  lemma StepHeads(codec: Codec, origin: Sub, ms: seq<ReplayMessage>, sub: Sub, c: Checkpoint, next: u64, m: ReplayMessage, i: nat)
    requires Tells(codec, origin, ms, sub) && Inv(sub, c, next) && Follows(c, m) && i < |sub.processors|
    requires ApplyOne(codec, sub, m).done.Ok? && IsNative(sub.processors[i].processor)
    ensures |ApplyOne(codec, sub, m).sub.processors| == |sub.processors|
    ensures Tops(sub.processors[i].processor.head, ApplyOne(codec, sub, m).sub.processors[i].processor.head,
                 n => ShownBy(codec, ms, m, n))
  {
    AppliedKeepsInv(codec, sub, c, next, m);
    if m.envelope.payload.Commit? {
      CommitHeadTops(codec, origin, ms, sub, c, next, m, i);
    } else if m.envelope.payload.Recovery() {
      NothingExposedBeforeCommit(codec, sub, m);
      assert Unexposed(sub.processors[i], ApplyOne(codec, sub, m).sub.processors[i]);
    } else {
      OrdinaryStep(codec, sub, c, next, m);
      OrdinaryHead(codec, sub, c, next, ms, m, i);
    }
  }

  lemma OrdinaryHead(codec: Codec, sub: Sub, c: Checkpoint, next: u64, ms: seq<ReplayMessage>, m: ReplayMessage, i: nat)
    requires Inv(sub, c, next) && Follows(c, m) && sub.recovery.None? && i < |sub.processors|
    requires ObserveFrom(codec, sub.chainId, sub.processors, 0, m).done.Ok? && IsNative(sub.processors[i].processor)
    ensures var ps := ObserveFrom(codec, sub.chainId, sub.processors, 0, m).processors;
      |ps| == |sub.processors|
      && Tops(sub.processors[i].processor.head, ps[i].processor.head, n => ShownBy(codec, ms, m, n))
  {
    assert [m][0] == m;
    ObservePointwise(codec, sub.chainId, sub.processors, 0, m);
    assert Observed(codec, sub.chainId, sub.processors[i], m).done.Ok?;
    DeltaHeadTops(codec, sub.chainId, ms, sub.processors[i].processor, m);
  }

  lemma NoHeadsShown(codec: Codec, sub: Sub)
    ensures HeadsTold(codec, sub, [], sub)
  {
  }

  ghost function HeadsReachedFrom(codec: Codec, origin: Sub): Relation {
    (run, s, at) => Reached(codec, origin, run, s, at) && HeadsTold(codec, origin, run, s)
  }

  lemma StepReachesHeads(codec: Codec, origin: Sub, ms: seq<ReplayMessage>, sub: Sub, c: Checkpoint, m: ReplayMessage)
    requires Reached(codec, origin, ms, sub, c) && HeadsTold(codec, origin, ms, sub)
    requires Follows(c, m) && ApplyOne(codec, sub, m).done.Ok?
    ensures Reached(codec, origin, ms + [m], After(codec, sub, m), m.checkpointAfter)
    ensures HeadsTold(codec, origin, ms + [m], After(codec, sub, m))
  {
    var next: u64 :| Inv(sub, c, next);
    StepReaches(codec, origin, ms, sub, c, m);
    forall i | 0 <= i < |sub.processors| && IsNative(origin.processors[i].processor)
      ensures HeadTold(codec, origin.processors[i].processor.head, ms + [m], After(codec, sub, m).processors[i].processor.head)
    {
      assert TellsAt(codec, origin, ms, sub, i);
      StepHeads(codec, origin, ms, sub, c, next, m, i);
      HeadStepTold(codec, origin.processors[i].processor.head, ms, m, sub.processors[i].processor.head,
                   After(codec, sub, m).processors[i].processor.head);
    }
  }

  /**
   Over every run of applied messages a native head is the largest block that an update in its
   scope or a commit naming it carried whole, or its first value if none is larger: a block
   carried incompletely never moves it.
   */
  lemma NativeHeadIsLargestWholeBlock(codec: Codec, sub: Sub, c: Checkpoint, items: seq<ReplayMessage>)
    requires Bootstrapped(sub, c) && Contiguous(c, items)
    requires ApplyBatch(codec, sub, c, items).done.Ok?
    ensures HeadsTold(codec, sub, items, ApplyBatch(codec, sub, c, items).sub)
  {
    BootstrapTells(codec, sub);
    assert Inv(sub, c, sub.boundary.exclusiveSeq + 1);
    NoHeadsShown(codec, sub);
    assert Kept(StepOf(codec), HeadsReachedFrom(codec, sub)) by {
      forall run, s, at, m ensures KeptAt(StepOf(codec), HeadsReachedFrom(codec, sub), run, s, at, m) {
        if HeadsReachedFrom(codec, sub)(run, s, at) && Follows(at, m) && ApplyOne(codec, s, m).done.Ok? {
          StepReachesHeads(codec, sub, run, s, at, m);
        }
      }
    }
    BatchKeeps(StepOf(codec), HeadsReachedFrom(codec, sub), [], sub, c, items);
    assert [] + items == items;
  }
}
