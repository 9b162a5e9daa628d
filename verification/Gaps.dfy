/** A lost entry always stops the consumer: no gap is missed. */
module Gaps {
  import opened Wrappers
  import opened Wire
  import opened EntryIds
  import opened Replay
  import opened RedisLog
  import opened Batches
  import opened World

  /** What the consumer does next, left alone with the stream. */
  function NextTwo(w: World): seq<Step> {
    if w.phase.Reading? then [Read, Inspect] else [Inspect, Read]
  }

  /** Stopped by the replay client, with nothing more applied. */
  predicate StoppedAtGap(before: World, after: World) {
    && after.phase.Stopped? && after.phase.exit.ReplayExit?
    && after == before.(phase := after.phase)
  }

  lemma LostEntryRead(k: Consumer, w: World)
    requires k.count > 0 && w.phase.Reading? && Ordered(w.log) && Printed(w.checkpoint)
    requires !Retains(w.log, w.checkpoint)
    ensures var records := XRead(w.log, w.checkpoint.entryId, k.count);
      if records == [] then ReadStep(k, w) == w.(phase := Inspecting)
      else
        && StoppedAtGap(w, ReadStep(k, w))
        && (DecodeRecords(k.codec, records).Ok? ==> ReadStep(k, w).phase.exit.error == RedisGap)
  {
    var records := XRead(w.log, w.checkpoint.entryId, k.count);
    ReadFindsExpected(w.log, w.checkpoint, k.count);
    if records != [] && DecodeRecords(k.codec, records).Ok? {
      UnexpectedFirstGaps(k.codec, w.checkpoint, records);
    }
  }

  /**
   Once the expected entry is lost, trimmed away, overtaken by another writer or gone with
   its stream, the consumer stops within a read and an inspection, applying nothing more.
   The exit is a gap unless the entries read do not even decode.
   */
  lemma LostEntryStops(k: Consumer, w: World)
    requires k.count > 0 && !w.phase.Stopped? && Ordered(w.log) && Printed(w.checkpoint)
    requires !Retains(w.log, w.checkpoint) && !AtTail(w.log, w.checkpoint)
    ensures var after := Run(k, w, NextTwo(w));
      && StoppedAtGap(w, after)
      && (DecodeRecords(k.codec, XRead(w.log, w.checkpoint.entryId, k.count)).Ok? ==> after.phase.exit.error == RedisGap)
  {
    LostEntryPolls(w.log, w.checkpoint, k.count);
    InspectOnlyMovesPhase(w);
    if w.phase.Reading? {
      TwoSteps(k, w, Read, Inspect);
      LostEntryRead(k, w);
    } else {
      TwoSteps(k, w, Inspect, Read);
      if !InspectStep(w).phase.Stopped? {
        LostEntryRead(k, InspectStep(w));
      }
    }
  }

  /**
   On the stream of the checkpoint's own writer, left alone, the consumer stops at a gap
   exactly when the entry it expects was trimmed away or the stream ends before the checkpoint.
   */
  lemma WriterStopsExactly(k: Consumer, w: World, first: nat, next: nat)
    requires k.count > 0 && w.phase.Reading? && Printed(w.checkpoint)
    requires WriterLog(k.codec, w.checkpoint.boundary, w.checkpoint.chainId, w.log, first, next)
    ensures var after := Run(k, w, [Read, Inspect]);
      if first <= w.checkpoint.lastSeq + 1 <= next then !(after.phase.Stopped? && after.phase.exit.ReplayExit?)
      else StoppedAtGap(w, after) && after.phase.exit.error == RedisGap
  {
    WriterPosition(k.codec, w.checkpoint, w.log, first, next);
    if first <= w.checkpoint.lastSeq + 1 <= next {
      HealthyReadThenInspect(k, w, first, next);
    } else {
      WriterReads(k.codec, w.checkpoint, w.log, first, next, k.count);
      LostEntryStops(k, w);
    }
  }

  lemma HealthyReadThenInspect(k: Consumer, w: World, first: nat, next: nat)
    requires k.count > 0 && w.phase.Reading? && Printed(w.checkpoint)
    requires WriterLog(k.codec, w.checkpoint.boundary, w.checkpoint.chainId, w.log, first, next)
    requires first <= w.checkpoint.lastSeq + 1 <= next
    ensures var after := Run(k, w, [Read, Inspect]);
      !(after.phase.Stopped? && after.phase.exit.ReplayExit?)
  {
    TwoSteps(k, w, Read, Inspect);
    HealthyStepNoReplayExit(k, w, Read, first, next);
    var one := Perform(k, w, Read);
    if one.phase.Inspecting? {
      assert one == w.(phase := Inspecting);
      HealthyStepNoReplayExit(k, one, Inspect, first, next);
    }
  }

  /** The stream of a writer of any other generation stops the consumer at a gap. */
  lemma OtherGenerationStops(k: Consumer, w: World, b: Boundary, chainId: u64, first: nat, next: nat)
    requires k.count > 0 && !w.phase.Stopped? && Printed(w.checkpoint)
    requires WriterLog(k.codec, b, chainId, w.log, first, next) && b.generation != w.checkpoint.boundary.generation
    ensures var after := Run(k, w, NextTwo(w));
      StoppedAtGap(w, after) && after.phase.exit.error == RedisGap
  {
    OtherGenerationLoses(k.codec, w.checkpoint, b, chainId, w.log, first, next);
    WriterReadDecodes(k.codec, b, chainId, w.log, first, next, w.checkpoint.entryId, k.count);
    LostEntryStops(k, w);
  }

  lemma WriterReadDecodes(codec: Codec, b: Boundary, chainId: u64, log: Log, first: nat, next: nat, after: string,
                          count: nat)
    requires WriterLog(codec, b, chainId, log, first, next)
    ensures DecodeRecords(codec, XRead(log, after, count)).Ok?
  {
    if ParseEntryId(after).Some? {
      var k := RecordsAfterIsSuffix(log.records, ParseEntryId(after).value);
      var records := XRead(log, after, count);
      forall i | 0 <= i < |records| ensures WriterEntry(codec, b, chainId, records[i]) {
        assert records[i] == log.records[k + i];
      }
      WriterRecordsDecode(codec, b, chainId, records);
    }
  }

  // Progress.

  /** At least one more message applied, or the consumer stopped on one that failed. */
  predicate Advanced(before: World, after: World) {
    |after.delivered| > |before.delivered| || (after.phase.Stopped? && after.phase.exit.ApplyExit?)
  }

  lemma ReadAdvances(k: Consumer, w: World, first: nat, next: nat)
    requires k.count > 0 && w.phase.Reading? && Printed(w.checkpoint)
    requires WriterLog(k.codec, w.checkpoint.boundary, w.checkpoint.chainId, w.log, first, next)
    requires first <= w.checkpoint.lastSeq + 1 < next
    ensures Advanced(w, ReadStep(k, w))
  {
    NoFalseGapOnRead(k.codec, w.checkpoint, w.log, first, next, k.count);
    var records := XRead(w.log, w.checkpoint.entryId, k.count);
    DecodedRecords(k.codec, records);
    var messages := DecodeRecords(k.codec, records).value;
    BuiltBatchIsContiguous(k.codec, w.checkpoint, messages);
    FailureKeepsCheckpoint(k.step, w.sub, w.checkpoint, BuildBatch(k.codec, w.checkpoint, messages).value);
  }

  /**
   While the writer's next entry is retained, a running consumer applies it: at once when it is
   about to read, after one inspection when its last read was empty, and after any transport
   failure.
   */
  lemma HealthyConsumerAdvances(k: Consumer, w: World, first: nat, next: nat)
    requires k.count > 0 && !w.phase.Stopped? && Printed(w.checkpoint)
    requires WriterLog(k.codec, w.checkpoint.boundary, w.checkpoint.chainId, w.log, first, next)
    requires first <= w.checkpoint.lastSeq + 1 < next
    ensures w.phase.Reading? ==> Advanced(w, Run(k, w, [Read]))
    ensures w.phase.Inspecting? ==> Advanced(w, Run(k, w, [Inspect, Read]))
    ensures Advanced(w, Run(k, w, [TransportFailure, Read]))
  {
    OneStep(k, w, Read);
    TwoSteps(k, w, Inspect, Read);
    TwoSteps(k, w, TransportFailure, Read);
    ReadAdvances(k, w.(phase := Reading), first, next);
    if w.phase.Inspecting? {
      EmptyPollIsExact(k.codec, w.checkpoint, w.log, first, next);
      assert InspectStep(w) == w.(phase := Reading);
    }
  }
}
