/** Which native block a committed recovery reports as complete. */
module RecoveryHeads {
  import opened Wrappers
  import opened Wire
  import opened Completeness
  import opened Subscription

  /** Some part carries native block `block` whole: Ready throughout under one hash. */
  ghost predicate Whole(block: u64, ms: seq<ProtocolMessage>, statuses: map<string, SyncStatus>) {
    (ms != [] || statuses != map[]) && exists hash :: AllReadyAt(block, hash, ms, statuses)
  }

  ghost predicate PartitionCarries(part: SnapshotPartition, block: int) {
    part.backend == Native && part.blockNumber == block && Whole(part.blockNumber, part.messages, part.syncStatuses)
  }

  ghost predicate ChunkCarries(parts: seq<SnapshotPartition>, block: int) {
    exists i :: 0 <= i < |parts| && PartitionCarries(parts[i], block)
  }

  ghost predicate EnvelopeCarries(e: Envelope, block: int) {
    e.payload.SnapshotChunk? && ChunkCarries(e.payload.partitions, block)
  }

  ghost predicate SnapshotCarries(snapshot: seq<Envelope>, block: int) {
    exists i :: 0 <= i < |snapshot| && EnvelopeCarries(snapshot[i], block)
  }

  /** The first native partition of the update is whole at the block. */
  ghost predicate UpdateCarries(parts: seq<UpdatePartition>, block: int) {
    exists i :: 0 <= i < |parts| && FirstWhole(parts, i, block)
  }

  ghost predicate FirstWhole(parts: seq<UpdatePartition>, i: nat, block: int)
    requires i < |parts|
  {
    && parts[i].backend == Native
    && (forall j :: 0 <= j < i ==> parts[j].backend != Native)
    && parts[i].blockNumber == block
    && Whole(parts[i].blockNumber, parts[i].messages, parts[i].syncStatuses)
  }

  ghost predicate CatchUpsCarry(catchUps: seq<RecoveryCatchUp>, block: int) {
    exists i :: 0 <= i < |catchUps| && UpdateCarries(catchUps[i].update, block)
  }

  /** The largest block with a property, None when there is none. */
  ghost predicate MaxWhere(best: Option<u64>, p: int -> bool) {
    match best
    case Some(b) => p(b) && forall n: int :: p(n) ==> n <= b
    case None => forall n: int :: !p(n)
  }

  lemma MaxOfEither(a: Option<u64>, b: Option<u64>, p: int -> bool, q: int -> bool, r: int -> bool)
    requires MaxWhere(a, p) && MaxWhere(b, q)
    requires forall n: int :: r(n) <==> p(n) || q(n)
    ensures MaxWhere(MaxOption(a, b), r)
  {
  }

  lemma MaxOfSame(best: Option<u64>, p: int -> bool, q: int -> bool)
    requires MaxWhere(best, p) && forall n: int :: p(n) <==> q(n)
    ensures MaxWhere(best, q)
  {
  }

  lemma PartitionBest(part: SnapshotPartition)
    ensures MaxWhere(if part.backend == Native
                     then CompleteBlock(part.blockNumber, part.messages, part.syncStatuses) else None,
                     n => PartitionCarries(part, n))
  {
    CompleteBlockExact(part.blockNumber, part.messages, part.syncStatuses);
  }

  lemma {:induction false} ChunkBest(parts: seq<SnapshotPartition>)
    ensures MaxWhere(PartitionsComplete(parts), n => ChunkCarries(parts, n))
    decreases |parts|
  {
    if parts != [] {
      PartitionBest(parts[0]);
      ChunkBest(parts[1..]);
      forall n: int ensures ChunkCarries(parts, n) <==> PartitionCarries(parts[0], n) || ChunkCarries(parts[1..], n) {
        if i :| 0 <= i < |parts| && PartitionCarries(parts[i], n) {
          assert i > 0 ==> parts[1..][i - 1] == parts[i];
        }
        if i :| 0 <= i < |parts[1..]| && PartitionCarries(parts[1..][i], n) {
          assert parts[i + 1] == parts[1..][i];
        }
      }
      MaxOfEither(if parts[0].backend == Native
                  then CompleteBlock(parts[0].blockNumber, parts[0].messages, parts[0].syncStatuses) else None,
                  PartitionsComplete(parts[1..]),
                  n => PartitionCarries(parts[0], n), n => ChunkCarries(parts[1..], n), n => ChunkCarries(parts, n));
    }
  }

  function EnvelopeComplete(e: Envelope): Option<u64> {
    match e.payload
    case SnapshotChunk(_, _, parts) => PartitionsComplete(parts)
    case _ => None
  }

  lemma EnvelopeBest(e: Envelope)
    ensures MaxWhere(EnvelopeComplete(e), n => EnvelopeCarries(e, n))
  {
    if e.payload.SnapshotChunk? {
      ChunkBest(e.payload.partitions);
      MaxOfSame(EnvelopeComplete(e), n => ChunkCarries(e.payload.partitions, n), n => EnvelopeCarries(e, n));
    }
  }

  lemma {:induction false} SnapshotBest(snapshot: seq<Envelope>)
    ensures MaxWhere(SnapshotComplete(snapshot), n => SnapshotCarries(snapshot, n))
    decreases |snapshot|
  {
    if snapshot != [] {
      EnvelopeBest(snapshot[0]);
      SnapshotBest(snapshot[1..]);
      forall n: int
        ensures SnapshotCarries(snapshot, n) <==> EnvelopeCarries(snapshot[0], n) || SnapshotCarries(snapshot[1..], n)
      {
        if i :| 0 <= i < |snapshot| && EnvelopeCarries(snapshot[i], n) {
          assert i > 0 ==> snapshot[1..][i - 1] == snapshot[i];
        }
        if i :| 0 <= i < |snapshot[1..]| && EnvelopeCarries(snapshot[1..][i], n) {
          assert snapshot[i + 1] == snapshot[1..][i];
        }
      }
      MaxOfEither(EnvelopeComplete(snapshot[0]), SnapshotComplete(snapshot[1..]),
                  n => EnvelopeCarries(snapshot[0], n), n => SnapshotCarries(snapshot[1..], n),
                  n => SnapshotCarries(snapshot, n));
    }
  }

  lemma {:induction false} UpdateBest(parts: seq<UpdatePartition>)
    ensures MaxWhere(UpdateComplete(parts), n => UpdateCarries(parts, n))
    decreases |parts|
  {
    if parts != [] {
      if parts[0].backend == Native {
        CompleteBlockExact(parts[0].blockNumber, parts[0].messages, parts[0].syncStatuses);
        assert UpdateCarries(parts, parts[0].blockNumber) <==> FirstWhole(parts, 0, parts[0].blockNumber);
        assert forall n: int :: UpdateCarries(parts, n) ==> FirstWhole(parts, 0, n);
      } else {
        UpdateBest(parts[1..]);
        forall n: int ensures UpdateCarries(parts, n) <==> UpdateCarries(parts[1..], n) {
          LaterNative(parts, n);
        }
        MaxOfSame(UpdateComplete(parts), n => UpdateCarries(parts[1..], n), n => UpdateCarries(parts, n));
      }
    }
  }

  lemma LaterNative(parts: seq<UpdatePartition>, n: int)
    requires parts != [] && parts[0].backend != Native
    ensures UpdateCarries(parts, n) <==> UpdateCarries(parts[1..], n)
  {
    var rest := parts[1..];
    if i :| 0 <= i < |parts| && FirstWhole(parts, i, n) {
      assert rest[i - 1] == parts[i] && FirstWhole(rest, i - 1, n);
    }
    if i :| 0 <= i < |rest| && FirstWhole(rest, i, n) {
      assert parts[i + 1] == rest[i] && FirstWhole(parts, i + 1, n);
    }
  }

  lemma {:induction false} CatchUpsBest(catchUps: seq<RecoveryCatchUp>)
    ensures MaxWhere(CatchUpsComplete(catchUps), n => CatchUpsCarry(catchUps, n))
    decreases |catchUps|
  {
    if catchUps != [] {
      UpdateBest(catchUps[0].update);
      CatchUpsBest(catchUps[1..]);
      forall n: int
        ensures CatchUpsCarry(catchUps, n) <==> UpdateCarries(catchUps[0].update, n) || CatchUpsCarry(catchUps[1..], n)
      {
        if i :| 0 <= i < |catchUps| && UpdateCarries(catchUps[i].update, n) {
          assert i > 0 ==> catchUps[1..][i - 1] == catchUps[i];
        }
        if i :| 0 <= i < |catchUps[1..]| && UpdateCarries(catchUps[1..][i].update, n) {
          assert catchUps[i + 1] == catchUps[1..][i];
        }
      }
      MaxOfEither(UpdateComplete(catchUps[0].update), CatchUpsComplete(catchUps[1..]),
                  n => UpdateCarries(catchUps[0].update, n), n => CatchUpsCarry(catchUps[1..], n),
                  n => CatchUpsCarry(catchUps, n));
    }
  }

  /**
   A commit reports the largest native block that its replacement or one of its catch-ups
   carries whole, and no block when none is carried whole.
   */
  lemma CommitReportsLargestWholeBlock(snapshot: seq<Envelope>, catchUps: seq<RecoveryCatchUp>)
    ensures MaxWhere(CommittedComplete(snapshot, catchUps),
                     n => SnapshotCarries(snapshot, n) || CatchUpsCarry(catchUps, n))
  {
    SnapshotBest(snapshot);
    CatchUpsBest(catchUps);
    MaxOfEither(SnapshotComplete(snapshot), CatchUpsComplete(catchUps), n => SnapshotCarries(snapshot, n),
                n => CatchUpsCarry(catchUps, n), n => SnapshotCarries(snapshot, n) || CatchUpsCarry(catchUps, n));
  }
}
