/** One step of the subscription: what it keeps, and how far a commit is all-or-nothing. */
module RecoveryCommit {
  import opened Wrappers
  import opened Wire
  import opened Contracts
  import opened EntryIds
  import opened Trackers
  import opened Replay
  import opened StateStores
  import opened Subscription
  import opened Batches
  import opened RecoveryInvariant

  /** The subscription after one applied message, its replay checkpoints reported. */
  function After(codec: Codec, sub: Sub, m: ReplayMessage): Sub {
    Marked(ApplyOne(codec, sub, m).sub, m)
  }

  /** With a processor to align, an overflowing commit always reports its failure. */
  lemma LastSeqCommitFails(codec: Codec, sub: Sub, c: Checkpoint, next: u64, m: ReplayMessage)
    requires Inv(sub, c, next) && m.envelope.payload.Commit? && |sub.processors| > 0
    requires m.entry.messageSeq == U64_MAX
    ensures ApplyOne(codec, sub, m).done.Err?
    ensures |ApplyOne(codec, sub, m).sub.processors| == |sub.processors|
    ensures CommitReady(codec, sub, m.entry.messageSeq, m.envelope.payload.commit) ==>
      forall i :: 0 <= i < |sub.processors| ==>
        ApplyOne(codec, sub, m).sub.processors[i].processor.store ==
          Swapped(sub.processors[i], CommitCandidates(codec, sub, m.entry.messageSeq, m.envelope.payload.commit)[i],
                  sub.recovery.value.manifest.targetStateVersion,
                  CommitHead(codec, sub, m.entry.messageSeq, m.envelope.payload.commit)).processor.store
  {
    if CommitReady(codec, sub, m.entry.messageSeq, m.envelope.payload.commit) {
      ReadyCommitPublishes(codec, sub, m);
      LastSeqSwapFails(codec, sub, c, next, m.envelope.payload.commit);
    } else {
      CommitUnready(codec, sub, m);
    }
  }

  lemma LastSeqSwapFails(codec: Codec, sub: Sub, c: Checkpoint, next: u64, commit: RecoveryCommit)
    requires Inv(sub, c, next) && CommitReady(codec, sub, U64_MAX, commit) && |sub.processors| > 0
    ensures var man := sub.recovery.value.manifest;
      var cs, complete := CommitCandidates(codec, sub, U64_MAX, commit), CommitHead(codec, sub, U64_MAX, commit);
      var r := PublishCommit(sub.(recovery := None), U64_MAX, man, cs, complete);
      && r.done.Err?
      && |r.sub.processors| == |sub.processors|
      && forall i :: 0 <= i < |sub.processors| ==>
           r.sub.processors[i].processor.store
           == Swapped(sub.processors[i], cs[i], man.targetStateVersion, complete).processor.store
  {
    var man := sub.recovery.value.manifest;
    PublishOnReachable(codec, sub, c, next, U64_MAX, commit);
    var published := PublishFrom(sub.processors, 0, CommitCandidates(codec, sub, U64_MAX, commit),
                                 man.targetStateVersion, CommitHead(codec, sub, U64_MAX, commit)).processors;
    var boundary := CommitBoundary(sub.boundary, U64_MAX, man.targetStateVersion);
    AlignPointwise(published, 0, boundary);
    assert Align(published[0].processor.tracker, boundary).Err?;
  }

  /** The state after one applied message keeps the invariant; `next` moves as the message says. */
  ghost predicate Stepped(sub: Sub, next: u64, m: ReplayMessage, after: Sub) {
    && NextAfter(sub, m, next) <= U64_MAX
    && Inv(after, m.checkpointAfter, NextAfter(sub, m, next))
    && |after.processors| == |sub.processors|
  }

  lemma FragmentStep(codec: Codec, sub: Sub, c: Checkpoint, next: u64, m: ReplayMessage)
    requires Inv(sub, c, next) && Follows(c, m)
    requires m.envelope.payload.Recovery() && !m.envelope.payload.Commit?
    requires ApplyOne(codec, sub, m).done.Ok?
    ensures Stepped(sub, next, m, ApplyOne(codec, sub, m).sub)
  {
    if m.envelope.payload.Start? {
      StartStep(sub, c, next, m);
    } else if m.envelope.payload.Chunk? {
      ChunkKeepsInv(codec, sub, c, next, m);
    } else {
      CatchUpKeepsInv(codec, sub, c, next, m);
    }
  }

  lemma StartStep(sub: Sub, c: Checkpoint, next: u64, m: ReplayMessage)
    requires Inv(sub, c, next) && Follows(c, m) && m.envelope.payload.Start?
    requires ApplyStart(sub, m.entry.messageSeq, m.envelope.payload.manifest).done.Ok?
    ensures var s := ApplyStart(sub, m.entry.messageSeq, m.envelope.payload.manifest).sub;
      Inv(s, m.checkpointAfter, next) && |s.processors| == |sub.processors|
  {
    FencePointwise(sub.processors, 0, m.envelope.payload.manifest);
    StartKeepsInv(sub, c, next, m);
  }

  lemma CommitStep(codec: Codec, sub: Sub, c: Checkpoint, next: u64, m: ReplayMessage)
    requires Inv(sub, c, next) && Follows(c, m) && |sub.processors| > 0 && m.envelope.payload.Commit?
    requires ApplyOne(codec, sub, m).done.Ok?
    ensures CommitReady(codec, sub, m.entry.messageSeq, m.envelope.payload.commit)
    ensures m.entry.messageSeq < U64_MAX
    ensures Stepped(sub, next, m, ApplyOne(codec, sub, m).sub)
  {
    if !CommitReady(codec, sub, m.entry.messageSeq, m.envelope.payload.commit) {
      CommitUnready(codec, sub, m);
    }
    if m.entry.messageSeq == U64_MAX {
      LastSeqCommitFails(codec, sub, c, next, m);
    }
    ReadyCommitSucceeds(codec, sub, c, next, m);
    CommitKeepsInv(codec, sub, c, next, m);
  }

  lemma OrdinaryStep(codec: Codec, sub: Sub, c: Checkpoint, next: u64, m: ReplayMessage)
    requires Inv(sub, c, next) && Follows(c, m) && |sub.processors| > 0 && !m.envelope.payload.Recovery()
    requires ApplyOne(codec, sub, m).done.Ok?
    ensures sub.recovery.None? && m.envelope.payload.Ordinary() && m.entry.messageSeq < U64_MAX
    ensures Stepped(sub, next, m, ApplyOne(codec, sub, m).sub)
  {
    assert [m][0] == m;
    ObservePointwise(codec, sub.chainId, sub.processors, 0, m);
    DeltaAdvancesTracker(codec, sub.chainId, sub.processors[0].processor, m.entry, m.envelope);
    OrdinaryKeepsInv(codec, sub, c, next, m);
  }

  lemma AppliedKeepsInv(codec: Codec, sub: Sub, c: Checkpoint, next: u64, m: ReplayMessage)
    requires Inv(sub, c, next) && Follows(c, m) && |sub.processors| > 0
    requires ApplyOne(codec, sub, m).done.Ok?
    ensures Stepped(sub, next, m, ApplyOne(codec, sub, m).sub)
  {
    if m.envelope.payload.Commit? {
      CommitStep(codec, sub, c, next, m);
    } else if m.envelope.payload.Recovery() {
      FragmentStep(codec, sub, c, next, m);
    } else {
      OrdinaryStep(codec, sub, c, next, m);
    }
  }

  /**
   The step lemma: a message handed on by the replay client and applied successfully keeps
   the invariant, and every backend then reports the checkpoint that was just reached.
   */
  lemma StepKeepsInv(codec: Codec, sub: Sub, c: Checkpoint, next: u64, m: ReplayMessage)
    requires Inv(sub, c, next) && Follows(c, m) && |sub.processors| > 0
    requires ApplyOne(codec, sub, m).done.Ok?
    ensures NextAfter(sub, m, next) <= U64_MAX
    ensures Inv(After(codec, sub, m), m.checkpointAfter, NextAfter(sub, m, next))
    ensures |After(codec, sub, m).processors| == |sub.processors|
    ensures forall i :: 0 <= i < |sub.processors| ==>
      After(codec, sub, m).processors[i].processor.reported == m.entryId
  {
    AppliedKeepsInv(codec, sub, c, next, m);
    FollowedId(c, m);
    MarkingKeepsInv(ApplyOne(codec, sub, m).sub, m.checkpointAfter, NextAfter(sub, m, next));
  }

  lemma FollowedId(c: Checkpoint, m: ReplayMessage)
    requires Follows(c, m)
    ensures m.checkpointAfter.entryId == m.entryId
  {
    assert [m][0] == m;
  }

  // All or nothing.

  ghost predicate SameStores(a: seq<Prepared>, b: seq<Prepared>) {
    |a| == |b| && forall i :: 0 <= i < |a| ==> a[i].processor.store == b[i].processor.store
  }

  /** Every named store now holds its rebuilt candidate, one version up; the others are untouched. */
  ghost predicate AllSwapped(codec: Codec, sub: Sub, after: Sub, m: Manifest, snapshot: seq<Envelope>,
                             catchUps: seq<RecoveryCatchUp>)
  {
    && |after.processors| == |sub.processors|
    && forall i :: 0 <= i < |sub.processors| ==>
         var live, now := sub.processors[i].processor, after.processors[i].processor.store;
         if Named(sub.processors[i], m) then
           var rebuilt := Rebuild(codec, sub.chainId, live, m.targetStateVersion, snapshot, catchUps);
           && rebuilt.Ok?
           && now == Published(rebuilt.value.content.(version := m.targetStateVersion))
           && now.content.version > live.store.content.version
         else now == live.store
  }

  /**
   Below the last sequence number a commit is all-or-nothing across backends on every
   reachable state: it fails with every live processor untouched, or it swaps every named
   backend to its rebuilt candidate and strictly raises its version.
   */
  lemma CommitIsAllOrNothing(codec: Codec, sub: Sub, c: Checkpoint, next: u64, m: ReplayMessage)
    requires Inv(sub, c, next) && m.envelope.payload.Commit?
    requires m.entry.messageSeq < U64_MAX
    ensures var r := ApplyOne(codec, sub, m);
      && (r.done.Err? ==> r.sub.processors == sub.processors)
      && (r.done.Ok? ==>
            && sub.recovery.Some?
            && CheckCommit(codec, sub, sub.recovery.value, m.entry.messageSeq, m.envelope.payload.commit).Ok?
            && AllSwapped(codec, sub, r.sub, sub.recovery.value.manifest,
                 CheckCommit(codec, sub, sub.recovery.value, m.entry.messageSeq, m.envelope.payload.commit).value,
                 ValuesInOrder(sub.recovery.value.catchUps)))
  {
    if CommitReady(codec, sub, m.entry.messageSeq, m.envelope.payload.commit) {
      ReadyCommitSucceeds(codec, sub, c, next, m);
      CommittedSwapsAll(codec, sub, c, next, m.entry.messageSeq, m.envelope.payload.commit, ApplyOne(codec, sub, m).sub);
    } else {
      CommitUnready(codec, sub, m);
    }
  }

  /** A commit moves the subscription and every processor to its own number and version, named or not. */
  lemma CommitMovesBoundaries(codec: Codec, sub: Sub, c: Checkpoint, next: u64, m: ReplayMessage)
    requires Inv(sub, c, next) && Follows(c, m) && |sub.processors| > 0 && m.envelope.payload.Commit?
    requires ApplyOne(codec, sub, m).done.Ok?
    ensures var after := ApplyOne(codec, sub, m).sub;
      && after.boundary == sub.boundary.(exclusiveSeq := m.entry.messageSeq,
                                         stateVersion := m.envelope.payload.commit.targetStateVersion)
      && forall i :: 0 <= i < |after.processors| ==> after.processors[i].boundary == after.boundary
  {
    CommitStep(codec, sub, c, next, m);
    ReadyCommitSucceeds(codec, sub, c, next, m);
  }

  lemma CommittedSwapsAll(codec: Codec, sub: Sub, c: Checkpoint, next: u64, seqNo: u64, commit: RecoveryCommit, after: Sub)
    requires Inv(sub, c, next) && CommitReady(codec, sub, seqNo, commit) && seqNo < U64_MAX
    requires Committed(codec, sub, seqNo, commit, after)
    ensures AllSwapped(codec, sub, after, sub.recovery.value.manifest,
                       CheckCommit(codec, sub, sub.recovery.value, seqNo, commit).value,
                       ValuesInOrder(sub.recovery.value.catchUps))
  {
    var a := sub.recovery.value;
    CandidatesPointwise(codec, sub, a.manifest, CheckCommit(codec, sub, a, seqNo, commit).value,
                        ValuesInOrder(a.catchUps));
  }

  /**
   Exactly when the guarantee breaks: a commit that names a live backend reports an error
   after it swapped stores if and only if it is otherwise ready and sits at the last
   sequence number, where the trackers can no longer be aligned past it.
   */
  lemma CommitTearsExactlyAtLastSeq(codec: Codec, sub: Sub, c: Checkpoint, next: u64, m: ReplayMessage, i: nat)
    requires Inv(sub, c, next) && m.envelope.payload.Commit? && sub.recovery.Some?
    requires i < |sub.processors| && Named(sub.processors[i], sub.recovery.value.manifest)
    ensures var r := ApplyOne(codec, sub, m);
      (r.done.Err? && !SameStores(r.sub.processors, sub.processors))
      <==> (m.entry.messageSeq == U64_MAX
            && CommitReady(codec, sub, m.entry.messageSeq, m.envelope.payload.commit))
  {
    var seqNo, commit := m.entry.messageSeq, m.envelope.payload.commit;
    if seqNo < U64_MAX {
      CommitIsAllOrNothing(codec, sub, c, next, m);
    } else {
      LastSeqCommitFails(codec, sub, c, next, m);
      if CommitReady(codec, sub, seqNo, commit) {
        PublishOnReachable(codec, sub, c, next, seqNo, commit);
      } else {
        CommitUnready(codec, sub, m);
      }
    }
  }

  /** Nothing of a processor differs but the request fence on its store. */
  ghost predicate Unexposed(before: Prepared, after: Prepared) {
    var store := after.processor.store;
    && after == before.(processor := before.processor.(store := store))
    && store.content == before.processor.store.content
  }

  lemma {:induction false} FenceExposesNothing(ps: seq<Prepared>, i: nat, m: Manifest)
    ensures var r := FenceFrom(ps, i, m).processors;
      |r| == |ps| && forall j :: 0 <= j < |ps| ==> Unexposed(ps[j], r[j])
    decreases |ps| - i
  {
    if i < |ps| {
      if !Named(ps[i], m) {
        FenceExposesNothing(ps, i + 1, m);
      } else if Newer(ps[i], m) {
        var next := ps[i := Fenced(ps[i], m)];
        FenceExposesNothing(next, i + 1, m);
        assert forall j :: 0 <= j < |ps| ==> Unexposed(ps[j], next[j]);
      }
    }
  }

  /**
   Start, Chunks and Catch-ups expose nothing, accepted or not: before the commit no boundary,
   live content, head or tracker moves, and of each processor only the request fence differs.
   */
  lemma NothingExposedBeforeCommit(codec: Codec, sub: Sub, m: ReplayMessage)
    requires m.envelope.payload.Recovery() && !m.envelope.payload.Commit?
    ensures var after := ApplyOne(codec, sub, m).sub;
      && (ApplyOne(codec, sub, m).done.Ok? ==> after.recovery.Some?)
      && after.boundary == sub.boundary
      && |after.processors| == |sub.processors|
      && forall i :: 0 <= i < |sub.processors| ==> Unexposed(sub.processors[i], after.processors[i])
  {
    if m.envelope.payload.Start? {
      FenceExposesNothing(sub.processors, 0, m.envelope.payload.manifest);
    }
  }

  /**
   Outside a recovery, in particular right after a commit, the next ordinary entry is new to
   every processor (the "already covered" skip never fires) and in step with every tracker,
   named by the last commit or not.
   */
  lemma EveryTrackerAcceptsNext(codec: Codec, sub: Sub, c: Checkpoint, next: u64, m: ReplayMessage)
    requires Inv(sub, c, next) && Follows(c, m) && sub.recovery.None?
    requires ValidEntry(codec, m.entry) && codec.envelope(m.entry.payloadJson) == Some(m.envelope)
    requires m.envelope.payload.Ordinary() && m.entry.messageSeq < U64_MAX
    ensures forall i :: 0 <= i < |sub.processors| ==>
      && m.entry.messageSeq > sub.processors[i].boundary.exclusiveSeq
      && Skip(sub.processors[i].processor.tracker, m.envelope).Ok?
  {
    assert [m][0] == m;
  }

  /** The replay checkpoint a backend reports is never before its own boundary. */
  lemma ReportedPastBoundary(p: Prepared, c: Checkpoint)
    requires Printed(c) && c.boundary.generation == p.boundary.generation
    ensures ParseEntryId(ReportedFor(p, c)) ==
      Some(EntryId(p.boundary.generation, if c.lastSeq < p.boundary.exclusiveSeq then p.boundary.exclusiveSeq else c.lastSeq))
  {
    PrintedIdReadsBack(p.boundary.generation, p.boundary.exclusiveSeq);
    PrintedIdReadsBack(c.boundary.generation, c.lastSeq);
  }
}
