/** Which recovery messages are accepted, and what the assembly therefore holds. */
module Fragments {
  import opened Wrappers
  import opened Wire
  import opened Contracts
  import opened Replay
  import opened StateStores
  import opened Subscription
  import opened Batches
  import opened RecoveryInvariant
  import opened RecoveryRuns

  // Acceptance, message by message.

  /** Every field a recovery needs is there, and one size and one digest for each chunk. */
  ghost predicate SoundManifest(m: Manifest) {
    && !Blank(m.recoveryId) && !Blank(m.replacementDigest)
    && m.targetStateVersion > 0 && m.commitWatermark > 0
    && m.backends != [] && Distinct(m.backends)
    && m.chunkCount == |m.chunkEncodedBytes| == |m.chunkDigests| > 0
    && (forall k :: 0 <= k < m.chunkCount ==> m.chunkEncodedBytes[k] > 0 && !Blank(m.chunkDigests[k]))
    && m.replacementEncodedBytes > 0
  }

  lemma ManifestExact(m: Manifest)
    ensures ValidManifest(m) <==> SoundManifest(m)
  {
    UniqueMeansDistinct(m.backends, {});
    assert 0 in m.chunkEncodedBytes <==> exists k :: 0 <= k < |m.chunkEncodedBytes| && m.chunkEncodedBytes[k] == 0;
  }

  ghost predicate InPlace(seqNo: u64, m: Manifest) {
    SoundManifest(m) && seqNo + m.chunkCount + m.bufferACount + 1 == m.commitWatermark
  }

  ghost predicate StartFits(sub: Sub, seqNo: u64, m: Manifest) {
    && InPlace(seqNo, m)
    && (sub.recovery.Some? ==> sub.recovery.value.manifest != m)
    && forall i :: 0 <= i < |sub.processors| && sub.processors[i].processor.backend in m.backends ==>
         sub.processors[i].processor.store.content.version < m.targetStateVersion
  }

  /**
   A Start is accepted exactly when its manifest is sound, in place, new, and newer than every
   named store. One out of place changes nothing; any other refusal drops the open recovery.
   */
  lemma StartAcceptedExactly(sub: Sub, seqNo: u64, m: Manifest)
    ensures ApplyStart(sub, seqNo, m).done.Ok? <==> StartFits(sub, seqNo, m)
    ensures StartFits(sub, seqNo, m) ==> ApplyStart(sub, seqNo, m).sub.recovery == Some(Assembly(m, map[], map[]))
    ensures !InPlace(seqNo, m) ==> ApplyStart(sub, seqNo, m).sub == sub
    ensures InPlace(seqNo, m) && !StartFits(sub, seqNo, m) ==> ApplyStart(sub, seqNo, m).sub.recovery == None
  {
    ManifestExact(m);
    FencePointwise(sub.processors, 0, m);
    assert StartFits(sub, seqNo, m) ==> forall i :: 0 <= i < |sub.processors| ==> Newer(sub.processors[i], m);
  }

  /** Chunk `k` of the manifest, as the entry carries it. */
  ghost predicate ChunkFits(codec: Codec, streamKey: string, maxlen: Option<u64>, m: Manifest, k: nat, entry: StreamEntry,
                            c: RecoveryChunk)
  {
    && c.recoveryId == m.recoveryId
    && c.targetStateVersion == m.targetStateVersion
    && c.backends == m.backends
    && c.chunkIndex == k < m.chunkCount
    && k < |m.chunkEncodedBytes| && k < |m.chunkDigests|
    && m.chunkEncodedBytes[k] == c.encodedBytes
    && codec.entrySize(streamKey, maxlen, entry) == Some(c.encodedBytes)
    && codec.digest(c.payloadFragment) == c.digest == m.chunkDigests[k]
  }

  ghost predicate SoundChunk(c: RecoveryChunk) {
    && !Blank(c.recoveryId) && !Blank(c.digest) && !Blank(c.payloadFragment)
    && c.targetStateVersion > 0 && c.encodedBytes > 0
    && c.backends != [] && Distinct(c.backends)
  }

  /** A chunk is accepted exactly when it is the next one declared, in identity, sizes and digests. */
  lemma ChunkAcceptedExactly(codec: Codec, sub: Sub, entry: StreamEntry, c: RecoveryChunk)
    ensures ApplyChunk(codec, sub, entry, c).done.Ok? <==>
      && SoundChunk(c)
      && sub.recovery.Some?
      && var a := sub.recovery.value;
         ChunkFits(codec, sub.boundary.streamKey, sub.redisMaxlen, a.manifest, |a.chunks|, entry, c)
    ensures ApplyChunk(codec, sub, entry, c).done.Ok? ==>
      var a := sub.recovery.value;
      ApplyChunk(codec, sub, entry, c).sub == sub.(recovery := Some(a.(chunks := a.chunks[c.chunkIndex := c])))
    ensures ApplyChunk(codec, sub, entry, c).done.Err? ==> ApplyChunk(codec, sub, entry, c).sub == sub
  {
    UniqueMeansDistinct(c.backends, {});
  }

  ghost predicate CatchUpFits(m: Manifest, k: nat, c: RecoveryCatchUp) {
    && c.recoveryId == m.recoveryId
    && c.targetStateVersion == m.targetStateVersion
    && c.blockIndex == k < m.bufferACount
  }

  /** A catch-up is accepted exactly when it is valid, the next one declared, and all chunks are held. */
  lemma CatchUpAcceptedExactly(codec: Codec, sub: Sub, c: RecoveryCatchUp)
    ensures ApplyCatchUp(codec, sub, c).done.Ok? <==>
      && !Blank(c.recoveryId) && c.targetStateVersion > 0 && ValidUpdate(codec.protocols, c.update)
      && sub.recovery.Some?
      && var a := sub.recovery.value;
         |a.chunks| == a.manifest.chunkCount && CatchUpFits(a.manifest, |a.catchUps|, c)
    ensures ApplyCatchUp(codec, sub, c).done.Ok? ==>
      var a := sub.recovery.value;
      ApplyCatchUp(codec, sub, c).sub == sub.(recovery := Some(a.(catchUps := a.catchUps[c.blockIndex := c])))
    ensures ApplyCatchUp(codec, sub, c).done.Err? ==> ApplyCatchUp(codec, sub, c).sub == sub
  {
    ValidateUpdateExact(codec.protocols, c.update);
  }

  ghost predicate CommitFits(codec: Codec, sub: Sub, a: Assembly, seqNo: u64, c: Wire.RecoveryCommit, text: string) {
    var m := a.manifest;
    && c.recoveryId == m.recoveryId
    && c.targetStateVersion == m.targetStateVersion
    && c.backends == m.backends
    && c.bufferACount == m.bufferACount
    && c.replacementDigest == m.replacementDigest
    && c.commitWatermark == m.commitWatermark == seqNo
    && |a.chunks| == m.chunkCount && |a.catchUps| == m.bufferACount
    && codec.byteLength(text) == m.replacementEncodedBytes
    && codec.digest(text) == m.replacementDigest
    && codec.replacement(text).Some?
    && ValidBoundary(sub.boundary)
  }

  /** A commit passes its checks exactly when it repeats the manifest and the joined fragments are what was declared. */
  lemma CommitCheckedExactly(codec: Codec, sub: Sub, a: Assembly, seqNo: u64, c: Wire.RecoveryCommit)
    ensures var text := JoinFragments(ValuesInOrder(a.chunks));
      && (CheckCommit(codec, sub, a, seqNo, c).Ok? <==> CommitFits(codec, sub, a, seqNo, c, text))
      && (CheckCommit(codec, sub, a, seqNo, c).Ok? ==>
            Some(CheckCommit(codec, sub, a, seqNo, c).value) == codec.replacement(text))
  {
  }

  ghost predicate SoundCommit(c: Wire.RecoveryCommit) {
    && !Blank(c.recoveryId) && !Blank(c.replacementDigest)
    && c.targetStateVersion > 0 && c.commitWatermark > 0
    && c.backends != [] && Distinct(c.backends)
  }

  /** A malformed commit changes nothing; any other commit, applied or not, ends the open recovery. */
  lemma CommitEndsRecovery(codec: Codec, sub: Sub, m: ReplayMessage)
    requires m.envelope.payload.Commit?
    ensures var r := ApplyOne(codec, sub, m);
      if SoundCommit(m.envelope.payload.commit) then r.sub.recovery == None else r.done.Err? && r.sub == sub
  {
    UniqueMeansDistinct(m.envelope.payload.commit.backends, {});
  }

  // The joined fragments.

  function Offset(chunks: seq<RecoveryChunk>, k: nat): (n: nat)
    requires k <= |chunks|
  {
    if k == 0 then 0 else Offset(chunks, k - 1) + |chunks[k - 1].payloadFragment|
  }

  lemma {:induction false} OffsetShifts(chunks: seq<RecoveryChunk>, k: nat)
    requires 0 < k <= |chunks|
    ensures Offset(chunks, k) == |chunks[0].payloadFragment| + Offset(chunks[1..], k - 1)
    decreases k
  {
    if k > 1 {
      OffsetShifts(chunks, k - 1);
    }
  }

  lemma {:induction false} JoinedLength(chunks: seq<RecoveryChunk>)
    ensures |JoinFragments(chunks)| == Offset(chunks, |chunks|)
    decreases |chunks|
  {
    if chunks != [] {
      JoinedLength(chunks[1..]);
      OffsetShifts(chunks, |chunks|);
    }
  }

  lemma {:induction false} OffsetsClimb(chunks: seq<RecoveryChunk>, k: nat)
    requires k <= |chunks|
    ensures Offset(chunks, k) <= Offset(chunks, |chunks|)
    decreases |chunks| - k
  {
    if k < |chunks| {
      OffsetsClimb(chunks, k + 1);
    }
  }

  /** Every fragment stands whole at its own place: in index order, with nothing between. */
  lemma {:induction false} FragmentInPlace(chunks: seq<RecoveryChunk>, k: nat)
    requires k < |chunks|
    ensures Offset(chunks, k + 1) <= |JoinFragments(chunks)| == Offset(chunks, |chunks|)
    ensures JoinFragments(chunks)[Offset(chunks, k)..Offset(chunks, k + 1)] == chunks[k].payloadFragment
    decreases k
  {
    JoinedLength(chunks);
    OffsetsClimb(chunks, k + 1);
    var text, first := JoinFragments(chunks), chunks[0].payloadFragment;
    OffsetShifts(chunks, k + 1);
    if k == 0 {
      assert Offset(chunks, 1) == |first|;
      assert text[..|first|] == first;
    } else {
      OffsetShifts(chunks, k);
      FragmentInPlace(chunks[1..], k - 1);
      assert text[|first|..] == JoinFragments(chunks[1..]);
    }
  }

  // What the assembly holds, over runs.

  /** Chunk `k` is the manifest's, and came with an entry of the declared size since the last Start. */
  ghost predicate ChunkCame(codec: Codec, ms: seq<ReplayMessage>, streamKey: string, maxlen: Option<u64>, m: Manifest, k: nat,
                            c: RecoveryChunk)
  {
    exists j :: LastStart(ms) <= j < |ms|
      && ms[j].envelope.payload == Chunk(c)
      && ChunkFits(codec, streamKey, maxlen, m, k, ms[j].entry, c)
  }

  /** Catch-up `k` is valid and the manifest's, and came since the last Start. */
  ghost predicate CatchUpCame(codec: Codec, ms: seq<ReplayMessage>, m: Manifest, k: nat, c: RecoveryCatchUp) {
    && ValidUpdate(codec.protocols, c.update)
    && CatchUpFits(m, k, c)
    && exists j :: LastStart(ms) <= j < |ms| && ms[j].envelope.payload == CatchUp(c)
  }

  ghost predicate AssemblyFits(codec: Codec, ms: seq<ReplayMessage>, streamKey: string, maxlen: Option<u64>, a: Assembly) {
    && LastStart(ms) > 0 && ms[LastStart(ms) - 1].envelope.payload == Start(a.manifest)
    && (forall k: u32 :: k in a.chunks ==> ChunkCame(codec, ms, streamKey, maxlen, a.manifest, k, a.chunks[k]))
    && (forall k: u32 :: k in a.catchUps ==> CatchUpCame(codec, ms, a.manifest, k, a.catchUps[k]))
  }

  ghost predicate HeldFit(codec: Codec, ms: seq<ReplayMessage>, sub: Sub) {
    sub.recovery.Some? ==> AssemblyFits(codec, ms, sub.boundary.streamKey, sub.redisMaxlen, sub.recovery.value)
  }

  lemma LastStartGrows(ms: seq<ReplayMessage>, m: ReplayMessage)
    ensures LastStart(ms + [m]) == if m.envelope.payload.Start? then |ms| + 1 else LastStart(ms)
  {
    assert (ms + [m])[..|ms|] == ms;
  }

  lemma ChunkStays(codec: Codec, ms: seq<ReplayMessage>, next: ReplayMessage, streamKey: string, maxlen: Option<u64>,
                   m: Manifest, k: nat, c: RecoveryChunk)
    requires ChunkCame(codec, ms, streamKey, maxlen, m, k, c) && !next.envelope.payload.Start?
    ensures ChunkCame(codec, ms + [next], streamKey, maxlen, m, k, c)
  {
    LastStartGrows(ms, next);
    var j :| LastStart(ms) <= j < |ms|
      && ms[j].envelope.payload == Chunk(c)
      && ChunkFits(codec, streamKey, maxlen, m, k, ms[j].entry, c);
    assert (ms + [next])[j] == ms[j];
  }

  lemma CatchUpStays(codec: Codec, ms: seq<ReplayMessage>, next: ReplayMessage, m: Manifest, k: nat, c: RecoveryCatchUp)
    requires CatchUpCame(codec, ms, m, k, c) && !next.envelope.payload.Start?
    ensures CatchUpCame(codec, ms + [next], m, k, c)
  {
    LastStartGrows(ms, next);
    var j :| LastStart(ms) <= j < |ms| && ms[j].envelope.payload == CatchUp(c);
    assert (ms + [next])[j] == ms[j];
  }

  lemma AssemblyStays(codec: Codec, ms: seq<ReplayMessage>, next: ReplayMessage, streamKey: string, maxlen: Option<u64>,
                      a: Assembly)
    requires AssemblyFits(codec, ms, streamKey, maxlen, a) && !next.envelope.payload.Start?
    ensures AssemblyFits(codec, ms + [next], streamKey, maxlen, a)
  {
    LastStartGrows(ms, next);
    forall k: u32 | k in a.chunks ensures ChunkCame(codec, ms + [next], streamKey, maxlen, a.manifest, k, a.chunks[k]) {
      ChunkStays(codec, ms, next, streamKey, maxlen, a.manifest, k, a.chunks[k]);
    }
    forall k: u32 | k in a.catchUps ensures CatchUpCame(codec, ms + [next], a.manifest, k, a.catchUps[k]) {
      CatchUpStays(codec, ms, next, a.manifest, k, a.catchUps[k]);
    }
  }

  lemma ChunkKeepsFit(codec: Codec, ms: seq<ReplayMessage>, sub: Sub, m: ReplayMessage)
    requires HeldFit(codec, ms, sub) && m.envelope.payload.Chunk?
    requires ApplyChunk(codec, sub, m.entry, m.envelope.payload.chunk).done.Ok?
    ensures HeldFit(codec, ms + [m], ApplyChunk(codec, sub, m.entry, m.envelope.payload.chunk).sub)
  {
    var c := m.envelope.payload.chunk;
    ChunkAcceptedExactly(codec, sub, m.entry, c);
    AssemblyStays(codec, ms, m, sub.boundary.streamKey, sub.redisMaxlen, sub.recovery.value);
    LastStartGrows(ms, m);
    assert ChunkCame(codec, ms + [m], sub.boundary.streamKey, sub.redisMaxlen, sub.recovery.value.manifest, c.chunkIndex, c) by {
      assert (ms + [m])[|ms|] == m;
    }
  }

  lemma CatchUpKeepsFit(codec: Codec, ms: seq<ReplayMessage>, sub: Sub, m: ReplayMessage)
    requires HeldFit(codec, ms, sub) && m.envelope.payload.CatchUp?
    requires ApplyCatchUp(codec, sub, m.envelope.payload.catchUp).done.Ok?
    ensures HeldFit(codec, ms + [m], ApplyCatchUp(codec, sub, m.envelope.payload.catchUp).sub)
  {
    var c := m.envelope.payload.catchUp;
    CatchUpAcceptedExactly(codec, sub, c);
    ValidateUpdateExact(codec.protocols, c.update);
    AssemblyStays(codec, ms, m, sub.boundary.streamKey, sub.redisMaxlen, sub.recovery.value);
    LastStartGrows(ms, m);
    assert CatchUpCame(codec, ms + [m], sub.recovery.value.manifest, c.blockIndex, c) by {
      assert (ms + [m])[|ms|] == m;
    }
  }

  lemma StartFitsNothing(codec: Codec, ms: seq<ReplayMessage>, sub: Sub, m: ReplayMessage)
    requires m.envelope.payload.Start? && ApplyStart(sub, m.entry.messageSeq, m.envelope.payload.manifest).done.Ok?
    ensures HeldFit(codec, ms + [m], ApplyStart(sub, m.entry.messageSeq, m.envelope.payload.manifest).sub)
  {
    StartAcceptedExactly(sub, m.entry.messageSeq, m.envelope.payload.manifest);
    LastStartGrows(ms, m);
    assert (ms + [m])[|ms|] == m;
  }

  /** An applied commit or ordinary entry leaves no recovery open. */
  lemma SettledHoldsNothing(codec: Codec, sub: Sub, m: ReplayMessage)
    requires m.envelope.payload.Commit? || !m.envelope.payload.Recovery()
    requires ApplyOne(codec, sub, m).done.Ok?
    ensures ApplyOne(codec, sub, m).sub.recovery.None?
  {
  }

  lemma StepKeepsFit(codec: Codec, ms: seq<ReplayMessage>, sub: Sub, m: ReplayMessage)
    requires HeldFit(codec, ms, sub) && ApplyOne(codec, sub, m).done.Ok?
    ensures HeldFit(codec, ms + [m], Marked(ApplyOne(codec, sub, m).sub, m))
  {
    if m.envelope.payload.Start? {
      StartFitsNothing(codec, ms, sub, m);
    } else if m.envelope.payload.Chunk? {
      ChunkKeepsFit(codec, ms, sub, m);
    } else if m.envelope.payload.CatchUp? {
      CatchUpKeepsFit(codec, ms, sub, m);
    } else {
      SettledHoldsNothing(codec, sub, m);
    }
  }

  /**
   Over every run, each chunk held is the manifest's in identity, backends, size and digest,
   and came since the last Start with an entry of that size; each catch-up held is valid and
   the manifest's.
   */
  lemma HeldFragmentsFit(codec: Codec, sub: Sub, c: Checkpoint, items: seq<ReplayMessage>)
    requires sub.recovery.None? && Contiguous(c, items) && ApplyBatch(codec, sub, c, items).done.Ok?
    ensures HeldFit(codec, items, ApplyBatch(codec, sub, c, items).sub)
  {
    var inv := (run, s, at) => HeldFit(codec, run, s);
    assert Kept(StepOf(codec), inv) by {
      forall run, s, at, m ensures KeptAt(StepOf(codec), inv, run, s, at, m) {
        if inv(run, s, at) && ApplyOne(codec, s, m).done.Ok? {
          StepKeepsFit(codec, run, s, m);
        }
      }
    }
    BatchKeeps(StepOf(codec), inv, [], sub, c, items);
    assert [] + items == items;
  }
}
