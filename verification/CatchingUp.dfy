/** What it means, over every run, that the consumer marks itself caught up. */
module CatchingUp {
  import opened Wrappers
  import opened Wire
  import opened EntryIds
  import opened Replay
  import opened RedisLog
  import opened Subscription
  import opened Batches
  import opened World

  /** No record of the set lies past the checkpoint. */
  ghost predicate NonePast(records: set<Record>, c: Checkpoint) {
    forall r :: r in records ==> r.id.AtMost(CheckpointId(c))
  }

  ghost predicate Appended(history: set<Record>, id: EntryId) {
    exists r :: r in history && r.id == id
  }

  /** While any entry is retained, the last one carries the last generated id. */
  ghost predicate EndsAtLast(log: Log) {
    log.Log? && log.records != [] ==> log.records[|log.records| - 1].id == log.generated
  }

  /**
   The stream's last generated id was appended, ends the retained entries, and bounds
   whatever was appended and not deleted since.
   */
  ghost predicate Accounted(w: World) {
    && w.deleted <= w.history
    && (w.log.Log? ==> Appended(w.history, w.log.generated))
    && (forall r :: r in w.history && r !in w.deleted ==> w.log.Log? && r.id.AtMost(w.log.generated))
    && EndsAtLast(w.log)
  }

  lemma LogStepKeepsAccounted(w: World, change: LogChange)
    requires Accounted(w)
    ensures Accounted(LogChanges(w, change))
  {
    var after := LogChanges(w, change);
    if change.Append? && after.log != w.log {
      assert change.record in after.history;
    } else if w.log.Log? {
      var r :| r in w.history && r.id == w.log.generated;
      assert r in after.history;
    }
  }

  /** Only a change of the log touches the log or its history. */
  lemma ConsumerKeepsLog(k: Consumer, w: World, step: Step)
    requires !step.LogStep?
    ensures var after := Perform(k, w, step);
      after.log == w.log && after.history == w.history && after.deleted == w.deleted
  {
    if step.Inspect? {
      InspectOnlyMovesPhase(w);
    } else if step.Read? && w.phase.Reading? {
      ReadKeepsLog(k, w);
    }
  }

  lemma ReadKeepsLog(k: Consumer, w: World)
    ensures var after := ReadStep(k, w);
      after.log == w.log && after.history == w.history && after.deleted == w.deleted
  {
  }

  lemma {:induction false} RunKeepsAccounted(k: Consumer, w: World, steps: seq<Step>)
    requires Accounted(w)
    ensures Accounted(Run(k, w, steps))
    decreases |steps|
  {
    if steps != [] {
      if steps[0].LogStep? {
        LogStepKeepsAccounted(w, steps[0].change);
      } else {
        ConsumerKeepsLog(k, w, steps[0]);
      }
      RunKeepsAccounted(k, Perform(k, w, steps[0]), steps[1..]);
    }
  }

  predicate Deletes(step: Step) {
    step.LogStep? && step.change.Delete?
  }

  lemma {:induction false} UndeletedRun(k: Consumer, w: World, steps: seq<Step>)
    requires forall i :: 0 <= i < |steps| ==> !Deletes(steps[i])
    ensures Run(k, w, steps).deleted == w.deleted
    decreases |steps|
  {
    if steps != [] {
      if !steps[0].LogStep? {
        ConsumerKeepsLog(k, w, steps[0]);
      }
      assert forall i :: 0 <= i < |steps| - 1 ==> steps[1..][i] == steps[i + 1];
      UndeletedRun(k, Perform(k, w, steps[0]), steps[1..]);
    }
  }

  /** The step is one at which the consumer marks itself caught up. */
  predicate MarksCaughtUp(k: Consumer, w: World, step: Step) {
    Perform(k, w.(caughtUpOnce := false), step).caughtUpOnce
  }

  /** A batch shorter than asked for, fully applied, reaches the end of the stream it was read from. */
  lemma ShortBatchEndsAtTail(k: Consumer, w: World)
    requires Ordered(w.log) && Accounted(w) && w.phase.Reading?
    requires MarksCaughtUp(k, w, Read)
    ensures AtTail(w.log, ReadStep(k, w).checkpoint)
  {
    var records := XRead(w.log, w.checkpoint.entryId, k.count);
    var messages := DecodeRecords(k.codec, records).value;
    var items := BuildBatch(k.codec, w.checkpoint, messages).value;
    assert ReadStep(k, w).checkpoint == CheckpointAfter(w.checkpoint, items) by {
      FailureKeepsCheckpoint(k.step, w.sub, w.checkpoint, items);
      assert items[..|items|] == items;
    }
    DecodedRecords(k.codec, records);
    ShortBuildEndsAtTail(k.codec, w.log, w.checkpoint, k.count);
  }

  lemma ShortBuildEndsAtTail(codec: Codec, log: Log, c: Checkpoint, count: nat)
    requires Ordered(log) && EndsAtLast(log) && 0 < |XRead(log, c.entryId, count)| < count
    requires var messages := DecodeRecords(codec, XRead(log, c.entryId, count));
      messages.Ok? && BuildBatch(codec, c, messages.value).Ok?
    ensures var messages := DecodeRecords(codec, XRead(log, c.entryId, count)).value;
      AtTail(log, CheckpointAfter(c, BuildBatch(codec, c, messages).value))
  {
    LastItemId(codec, c, XRead(log, c.entryId, count));
    ShortReadIsWhole(log, c.entryId, count);
  }

  /** The checkpoint after a batch built from records is the last record's id. */
  lemma LastItemId(codec: Codec, c: Checkpoint, records: seq<Record>)
    requires records != [] && DecodeRecords(codec, records).Ok?
    requires BuildBatch(codec, c, DecodeRecords(codec, records).value).Ok?
    ensures var items := BuildBatch(codec, c, DecodeRecords(codec, records).value).value;
      CheckpointId(CheckpointAfter(c, items)) == records[|records| - 1].id
  {
    var messages := DecodeRecords(codec, records).value;
    var items := BuildBatch(codec, c, messages).value;
    DecodedRecords(codec, records);
    BuiltBatchIsContiguous(codec, c, messages);
    BuiltFromMessages(codec, c, messages);
    var last, id := items[|items| - 1], records[|records| - 1].id;
    assert last.entryId == messages[|messages| - 1].entryId == PrintId(id);
    PrintedIdsEqual(id.millis, id.sequence, c.boundary.generation, last.entry.messageSeq);
  }

  lemma ShortReadIsWhole(log: Log, after: string, count: nat)
    requires Ordered(log)
    requires 0 < |XRead(log, after, count)| < count
    ensures log.Log? && log.records != []
    ensures var records := XRead(log, after, count);
      records[|records| - 1] == log.records[|log.records| - 1]
  {
    var k := RecordsAfterIsSuffix(log.records, ParseEntryId(after).value);
  }

  /** Whenever the consumer marks itself caught up, the stream ends at the checkpoint it reached. */
  lemma MarkedAtTail(k: Consumer, w: World, step: Step)
    requires Ordered(w.log) && Accounted(w) && Printed(w.checkpoint)
    requires MarksCaughtUp(k, w, step)
    ensures AtTail(w.log, Perform(k, w, step).checkpoint) && !step.LogStep?
  {
    if step.Inspect? {
      InspectOnlyMovesPhase(w);
      InspectOnlyMovesPhase(w.(caughtUpOnce := false));
      EmptyPollIsSound(w.log, w.checkpoint, 1);
    } else {
      ShortBatchEndsAtTail(k, w);
    }
  }

  /**
   Exactly when the marking tells the truth about everything ever generated: nothing at all
   lies past the checkpoint if and only if nothing that was deleted does.
   */
  lemma MarkIsTrueUnlessDeleted(k: Consumer, w: World, step: Step)
    requires Ordered(w.log) && Accounted(w) && Printed(w.checkpoint)
    requires MarksCaughtUp(k, w, step)
    ensures var after := Perform(k, w, step);
      NonePast(after.history, after.checkpoint) <==> NonePast(after.deleted, after.checkpoint)
  {
    MarkedAtTail(k, w, step);
    ConsumerKeepsLog(k, w, step);
  }

  lemma {:induction false} RunKeepsPrinted(k: Consumer, origin: Sub, start: Checkpoint, w: World, steps: seq<Step>)
    requires WorldInv(k, origin, start, w) && Printed(start)
    ensures Ordered(Run(k, w, steps).log) && Printed(Run(k, w, steps).checkpoint)
  {
    RunKeepsInv(k, origin, start, w, steps);
  }

  /**
   Over every run, and at every step at which the consumer marks itself caught up: all that
   was ever generated is within its checkpoint exactly when all deleted entries are, so
   always in a run that deletes no stream.
   */
  lemma CaughtUpOverRuns(k: Consumer, w: World, steps: seq<Step>, step: Step)
    requires Begins(k.codec, w) && Accounted(w)
    requires MarksCaughtUp(k, Run(k, w, steps), step)
    ensures var after := Perform(k, Run(k, w, steps), step);
      && (NonePast(after.history, after.checkpoint) <==> NonePast(after.deleted, after.checkpoint))
      && (w.deleted == {} && (forall i :: 0 <= i < |steps| ==> !Deletes(steps[i]))
          ==> NonePast(after.history, after.checkpoint))
  {
    var at := Run(k, w, steps);
    RunKeepsPrinted(k, w.sub, w.checkpoint, w, steps);
    RunKeepsAccounted(k, w, steps);
    MarkIsTrueUnlessDeleted(k, at, step);
    MarkedAtTail(k, at, step);
    ConsumerKeepsLog(k, at, step);
    if w.deleted == {} && forall i :: 0 <= i < |steps| ==> !Deletes(steps[i]) {
      UndeletedRun(k, w, steps);
    }
  }

  /** The stream ends before the checkpoint, as one that went missing or was rewritten does. */
  predicate MovedBackwards(log: Log, c: Checkpoint) {
    if log.Missing? then c.lastSeq > 0 else log.generated.Less(CheckpointId(c))
  }

  /**
   In a run that deletes no stream, an inspection marks the consumer caught up exactly when
   nothing generated lies past its checkpoint and the stream has not moved backwards.
   */
  lemma InspectionIsExact(k: Consumer, w: World, steps: seq<Step>)
    requires Begins(k.codec, w) && Accounted(w) && w.deleted == {}
    requires forall i :: 0 <= i < |steps| ==> !Deletes(steps[i])
    requires Run(k, w, steps).phase.Inspecting?
    ensures var at := Run(k, w, steps);
      MarksCaughtUp(k, at, Inspect) <==>
      NonePast(at.history, at.checkpoint) && !MovedBackwards(at.log, at.checkpoint)
  {
    RunKeepsAccounted(k, w, steps);
    UndeletedRun(k, w, steps);
    RunKeepsPrinted(k, w.sub, w.checkpoint, w, steps);
    InspectedExactly(Run(k, w, steps));
  }

  lemma InspectedExactly(at: World)
    requires Ordered(at.log) && Printed(at.checkpoint) && Accounted(at) && at.deleted == {}
    ensures InspectStep(at.(caughtUpOnce := false)).caughtUpOnce <==>
      NonePast(at.history, at.checkpoint) && !MovedBackwards(at.log, at.checkpoint)
  {
    EmptyPollIsSound(at.log, at.checkpoint, 1);
    assert InspectStep(at.(caughtUpOnce := false)).caughtUpOnce <==> AtTail(at.log, at.checkpoint);
    if at.log.Log? {
      var r :| r in at.history && r.id == at.log.generated;
    }
  }

  /**
   The input that shows the deletion matters: a consumer at 0 over an unwritten stream sees
   nothing, an entry is appended and its stream deleted, and the next inspection marks the
   consumer caught up although that entry was generated past its checkpoint.
   */
  lemma DeletedEntryGoesUnnoticed(k: Consumer, w: World, r: Record)
    requires Begins(k.codec, w) && w.log.Missing? && w.checkpoint.lastSeq == 0
    requires !r.id.AtMost(CheckpointId(w.checkpoint))
    ensures var at := Run(k, w, [Read, LogStep(Append(r)), LogStep(Delete)]);
      var after := Perform(k, at, Inspect);
      && MarksCaughtUp(k, at, Inspect) && after.phase.Reading?
      && r in after.deleted && !NonePast(after.history, after.checkpoint)
  {
    var one := Perform(k, w, Read);
    var two := Perform(k, one, LogStep(Append(r)));
    var three := Perform(k, two, LogStep(Delete));
    assert one == w.(phase := Inspecting);
    ThreeSteps(k, w, Read, LogStep(Append(r)), LogStep(Delete));
    assert three.log.Missing? && r in three.history;
  }

  lemma ThreeSteps(k: Consumer, w: World, one: Step, two: Step, three: Step)
    ensures Run(k, w, [one, two, three]) == Perform(k, Perform(k, Perform(k, w, one), two), three)
  {
    assert [one, two, three][1..] == [two, three];
    TwoSteps(k, Perform(k, w, one), two, three);
  }
}
