/** A Redis stream as its readers see it, and what an XREAD and an XINFO of it return. */
module RedisLog {
  import opened Wrappers
  import opened Wire
  import opened EntryIds
  import opened Replay

  datatype Record = Record(id: EntryId, fields: string)

  /** `generated` is the last id Redis ever generated for the stream, even if trimmed away. */
  datatype Log = Missing | Log(records: seq<Record>, generated: EntryId)

  /** Redis keeps ids strictly increasing and never generates below its last id. */
  ghost predicate Ordered(log: Log) {
    log.Log? ==>
      && (forall i, j :: 0 <= i < j < |log.records| ==> log.records[i].id.Less(log.records[j].id))
      && (forall i :: 0 <= i < |log.records| ==> log.records[i].id.AtMost(log.generated))
  }

  // What writers and retention do to the stream between a reader's commands.

  datatype LogChange = Append(record: Record) | TrimFront(count: nat) | Delete

  function Change(log: Log, change: LogChange): Log {
    match change
    case Append(record) =>
      if log.Missing? then Log([record], record.id)
      else if log.generated.Less(record.id) then Log(log.records + [record], record.id)
      else log
    case TrimFront(count) =>
      if log.Missing? then log
      else log.(records := log.records[if count <= |log.records| then count else |log.records|..])
    case Delete => Missing
  }

  function ChangeAll(log: Log, changes: seq<LogChange>): Log
    decreases |changes|
  {
    if changes == [] then log else ChangeAll(Change(log, changes[0]), changes[1..])
  }

  /** The retained records strictly after `after`. */
  function RecordsAfter(records: seq<Record>, after: EntryId): seq<Record> {
    if records == [] then []
    else if after.Less(records[0].id) then records
    else RecordsAfter(records[1..], after)
  }

  function Take(records: seq<Record>, count: nat): seq<Record> {
    if |records| <= count then records else records[..count]
  }

  /** XREAD COUNT: the first `count` records after the given printed id. */
  function XRead(log: Log, after: string, count: nat): seq<Record> {
    match (log, ParseEntryId(after))
    case (Log(records, _), Some(id)) => Take(RecordsAfter(records, id), count)
    case _ => []
  }

  function DecodeRecords(codec: Codec, records: seq<Record>): Result<seq<StreamMessage>, ReplayError> {
    if records == [] then Ok([])
    else
      var entry :- DecodeEntry(codec, records[0].fields);
      var rest :- DecodeRecords(codec, records[1..]);
      Ok([StreamMessage(PrintId(records[0].id), entry)] + rest)
  }

  function PrintId(id: EntryId): string {
    PrintEntryId(id.millis, id.sequence)
  }

  /** XINFO STREAM. */
  function XInfo(log: Log): Option<StreamInfo> {
    match log
    case Missing => None
    case Log(records, generated) =>
      if records == [] then Some(StreamInfo(PrintId(generated), None, None))
      else
        Some(StreamInfo(PrintId(generated), Some(PrintId(records[0].id)), Some(PrintId(records[|records| - 1].id))))
  }

  lemma {:induction false} ChangesKeepOrder(log: Log, changes: seq<LogChange>)
    requires Ordered(log)
    ensures Ordered(ChangeAll(log, changes))
    decreases |changes|
  {
    if changes != [] {
      ChangesKeepOrder(Change(log, changes[0]), changes[1..]);
    }
  }

  /** In an ordered stream the records after an id are the suffix that starts above it. */
  lemma {:induction false} RecordsAfterIsSuffix(records: seq<Record>, after: EntryId) returns (k: nat)
    requires forall i, j :: 0 <= i < j < |records| ==> records[i].id.Less(records[j].id)
    ensures k <= |records| && RecordsAfter(records, after) == records[k..]
    ensures forall i :: 0 <= i < k ==> records[i].id.AtMost(after)
    ensures forall i :: k <= i < |records| ==> after.Less(records[i].id)
  {
    if records == [] || after.Less(records[0].id) {
      k := 0;
    } else {
      assert forall i :: 0 <= i < |records| - 1 ==> records[1..][i] == records[i + 1];
      var rest := RecordsAfterIsSuffix(records[1..], after);
      k := rest + 1;
      assert records[1..][rest..] == records[k..];
    }
  }

  lemma {:induction false} DecodedRecords(codec: Codec, records: seq<Record>)
    requires DecodeRecords(codec, records).Ok?
    ensures var ms := DecodeRecords(codec, records).value;
      && |ms| == |records|
      && forall i :: 0 <= i < |ms| ==>
           && ms[i].entryId == PrintId(records[i].id)
           && DecodeEntry(codec, records[i].fields) == Ok(ms[i].entry)
  {
    if records != [] {
      DecodedRecords(codec, records[1..]);
      var ms := DecodeRecords(codec, records).value;
      assert forall i :: 0 < i < |ms| ==>
        ms[i] == DecodeRecords(codec, records[1..]).value[i - 1] && records[i] == records[1..][i - 1];
    }
  }

  // What an empty poll proves about the stream it inspected.

  function FirstId(records: seq<Record>): Option<EntryId> {
    if records == [] then None else Some(records[0].id)
  }

  function LastId(records: seq<Record>): Option<EntryId> {
    if records == [] then None else Some(records[|records| - 1].id)
  }

  function ExpectedId(c: Checkpoint): Option<EntryId> {
    if c.lastSeq < U64_MAX then Some(EntryId(c.boundary.generation, c.lastSeq + 1)) else None
  }

  /** The ids XINFO prints are read back exactly, so the poll decides on the real ids. */
  lemma PollReadsTheRealIds(log: Log, c: Checkpoint)
    requires log.Log? && Printed(c)
    ensures EmptyPollAction(c, XInfo(log)) ==
      DecideEmptyPoll(EntryId(c.boundary.generation, c.lastSeq), log.generated, ExpectedId(c),
                      FirstId(log.records), LastId(log.records))
  {
    var g := c.boundary.generation;
    PrintedIdReadsBack(g, c.lastSeq);
    PrintedIdReadsBack(log.generated.millis, log.generated.sequence);
    var expected := if c.lastSeq < U64_MAX then EntryId(g, c.lastSeq + 1) else EntryId(0, 0);
    PrintedIdReadsBack(expected.millis, expected.sequence);
    if log.records != [] {
      var first, last := log.records[0].id, log.records[|log.records| - 1].id;
      PrintedIdReadsBack(first.millis, first.sequence);
      PrintedIdReadsBack(last.millis, last.sequence);
    }
    ReadIdsDecide(c, XInfo(log).value, EntryId(g, c.lastSeq), log.generated, expected,
                  FirstId(log.records), LastId(log.records));
  }

  /** The checkpoint's own entry. */
  function CheckpointId(c: Checkpoint): EntryId {
    EntryId(c.boundary.generation, c.lastSeq)
  }

  /**
   The stream as it stands ends at the checkpoint. A missing stream counts as ending there
   when the checkpoint is at 0, whatever was generated before it went missing.
   */
  predicate AtTail(log: Log, c: Checkpoint) {
    if log.Missing? then c.lastSeq == 0 else log.generated == CheckpointId(c)
  }

  /**
   On any ordered stream, an empty poll is CaughtUp exactly when the stream ends at the
   checkpoint, and Pending means the next read of that stream returns something.
   */
  lemma EmptyPollIsSound(log: Log, c: Checkpoint, count: nat)
    requires Ordered(log) && Printed(c) && count > 0
    ensures EmptyPollAction(c, XInfo(log)) == Ok(CaughtUp) <==> AtTail(log, c)
    ensures EmptyPollAction(c, XInfo(log)) == Ok(CaughtUp) ==> XRead(log, c.entryId, count) == []
    ensures EmptyPollAction(c, XInfo(log)) == Ok(Pending) ==> XRead(log, c.entryId, count) != []
  {
    if log.Log? {
      PollReadsTheRealIds(log, c);
      PrintedIdReadsBack(c.boundary.generation, c.lastSeq);
      var id := EntryId(c.boundary.generation, c.lastSeq);
      var k := RecordsAfterIsSuffix(log.records, id);
      if k < |log.records| {
        var last := log.records[|log.records| - 1];
        assert id.Less(last.id) && last.id.AtMost(log.generated);
      }
    }
  }

  // The stream of one writer generation.

  /** The entry a writer of this boundary publishes at `seqNo`, decoded. */
  ghost predicate WriterEntry(codec: Codec, b: Boundary, chainId: u64, record: Record) {
    var entry := DecodeEntry(codec, record.fields);
    && entry.Ok?
    && entry.value.streamId == b.streamId
    && entry.value.chainId == chainId
    && entry.value.messageSeq == record.id.sequence
    && (entry.value.snapshotId.Some? ==> entry.value.snapshotId.value == b.snapshotId)
  }

  /** One generation's writer appended everything so far: `first..next-1` is retained. */
  ghost predicate WriterLog(codec: Codec, b: Boundary, chainId: u64, log: Log, first: nat, next: nat) {
    && 0 < first <= next <= U64_MAX + 1
    && 1 < next
    && log.Log?
    && |log.records| == next - first
    && log.generated == EntryId(b.generation, next - 1)
    && forall i :: 0 <= i < |log.records| ==>
         log.records[i].id == EntryId(b.generation, first + i) && WriterEntry(codec, b, chainId, log.records[i])
  }

  lemma {:induction false} WriterReadsBuild(codec: Codec, c: Checkpoint, records: seq<Record>)
    requires Printed(c)
    requires forall i :: 0 <= i < |records| ==>
      && records[i].id.millis == c.boundary.generation
      && records[i].id.sequence == c.lastSeq + 1 + i
      && WriterEntry(codec, c.boundary, c.chainId, records[i])
    ensures DecodeRecords(codec, records).Ok?
    ensures BuildBatch(codec, c, DecodeRecords(codec, records).value).Ok?
    decreases |records|
  {
    if records != [] {
      var ms0 := StreamMessage(PrintId(records[0].id), DecodeEntry(codec, records[0].fields).value);
      assert BuildOne(codec, c, ms0).Ok?;
      var next := BuildOne(codec, c, ms0).value.checkpointAfter;
      assert forall i :: 0 <= i < |records| - 1 ==> records[1..][i] == records[i + 1];
      WriterReadsBuild(codec, next, records[1..]);
      var ms := DecodeRecords(codec, records).value;
      assert ms[1..] == DecodeRecords(codec, records[1..]).value;
    }
  }

  /**
   While one writer keeps the stream and the entry after the checkpoint is retained or not
   yet written, no read raises a gap: it is empty exactly at the tail, and otherwise it
   builds a batch that begins with the expected entry.
   */
  lemma NoFalseGapOnRead(codec: Codec, c: Checkpoint, log: Log, first: nat, next: nat, count: nat)
    requires WriterLog(codec, c.boundary, c.chainId, log, first, next)
    requires Printed(c) && first <= c.lastSeq + 1 <= next && count > 0
    ensures var records := XRead(log, c.entryId, count);
      && (records == [] <==> next == c.lastSeq + 1)
      && DecodeRecords(codec, records).Ok?
      && BuildBatch(codec, c, DecodeRecords(codec, records).value).Ok?
      && (records != [] ==> records[0].id == EntryId(c.boundary.generation, c.lastSeq + 1))
  {
    PrintedIdReadsBack(c.boundary.generation, c.lastSeq);
    var id := EntryId(c.boundary.generation, c.lastSeq);
    var k := RecordsAfterIsSuffix(log.records, id);
    assert k == c.lastSeq + 1 - first by {
      var expected := c.lastSeq + 1 - first;
      assert expected < |log.records| ==> log.records[expected].id.sequence == c.lastSeq + 1;
      assert 0 < expected ==> log.records[expected - 1].id.sequence == c.lastSeq;
    }
    var records := XRead(log, c.entryId, count);
    assert forall i :: 0 <= i < |records| ==> records[i] == log.records[k + i];
    WriterReadsBuild(codec, c, records);
  }

  /**
   The empty poll is exact on a one-writer stream, however it grew or was trimmed since the
   empty read: CaughtUp at the tail, Pending when the expected entry is retained, and a gap
   exactly when the stream is behind the checkpoint or has trimmed the expected entry.
   */
  lemma EmptyPollIsExact(codec: Codec, c: Checkpoint, log: Log, first: nat, next: nat)
    requires WriterLog(codec, c.boundary, c.chainId, log, first, next)
    requires Printed(c)
    ensures EmptyPollAction(c, XInfo(log)) ==
      if next == c.lastSeq + 1 then Ok(CaughtUp)
      else if first <= c.lastSeq + 1 < next then Ok(Pending)
      else Err(RedisGap)
  {
    PollReadsTheRealIds(log, c);
  }

  // When the expected entry is lost.

  /** The stream still holds the entry after the checkpoint. */
  ghost predicate Retains(log: Log, c: Checkpoint) {
    log.Log? && exists i :: 0 <= i < |log.records| && Some(log.records[i].id) == ExpectedId(c)
  }

  /** A retained expected entry is the first one read. */
  lemma ReadFindsExpected(log: Log, c: Checkpoint, count: nat)
    requires Ordered(log) && Printed(c) && count > 0
    ensures var records := XRead(log, c.entryId, count);
      Retains(log, c) <==> records != [] && Some(records[0].id) == ExpectedId(c)
  {
    PrintedIdReadsBack(c.boundary.generation, c.lastSeq);
    if log.Log? {
      var k := RecordsAfterIsSuffix(log.records, CheckpointId(c));
      var records := XRead(log, c.entryId, count);
      if records != [] {
        assert records[0] == log.records[k];
      }
      if Retains(log, c) {
        var i :| 0 <= i < |log.records| && Some(log.records[i].id) == ExpectedId(c);
        assert k <= i;
      }
    }
  }

  /** A read that does not begin with the expected entry is a gap. */
  lemma UnexpectedFirstGaps(codec: Codec, c: Checkpoint, records: seq<Record>)
    requires records != [] && DecodeRecords(codec, records).Ok?
    requires Some(records[0].id) != ExpectedId(c)
    ensures BuildBatch(codec, c, DecodeRecords(codec, records).value) == Err(RedisGap)
  {
    var id := records[0].id;
    if c.lastSeq < U64_MAX {
      PrintedIdsEqual(id.millis, id.sequence, c.boundary.generation, c.lastSeq + 1);
    }
    assert BuildOne(codec, c, DecodeRecords(codec, records).value[0]) == Err(RedisGap);
  }

  /**
   The expected entry is neither retained nor still to come: an empty read is then a gap at
   the poll, and a poll that is not a gap promises a non-empty read.
   */
  lemma LostEntryPolls(log: Log, c: Checkpoint, count: nat)
    requires Ordered(log) && Printed(c) && count > 0
    requires !Retains(log, c) && !AtTail(log, c)
    ensures XRead(log, c.entryId, count) == [] ==> EmptyPollAction(c, XInfo(log)) == Err(RedisGap)
    ensures EmptyPollAction(c, XInfo(log)) in {Err(RedisGap), Ok(Pending)}
  {
    EmptyPollIsSound(log, c, count);
    if log.Log? {
      PollReadsTheRealIds(log, c);
    }
  }

  /** Where a one-writer stream stands towards the checkpoint. */
  lemma WriterPosition(codec: Codec, c: Checkpoint, log: Log, first: nat, next: nat)
    requires WriterLog(codec, c.boundary, c.chainId, log, first, next)
    ensures Ordered(log)
    ensures Retains(log, c) <==> first <= c.lastSeq + 1 < next
    ensures AtTail(log, c) <==> next == c.lastSeq + 1
  {
    if first <= c.lastSeq + 1 < next {
      assert log.records[c.lastSeq + 1 - first].id.sequence == c.lastSeq + 1;
    }
  }

  /** A stream written by another generation has lost the expected entry. */
  lemma OtherGenerationLoses(codec: Codec, c: Checkpoint, b: Boundary, chainId: u64, log: Log, first: nat, next: nat)
    requires WriterLog(codec, b, chainId, log, first, next) && b.generation != c.boundary.generation
    ensures Ordered(log) && !Retains(log, c) && !AtTail(log, c)
  {
  }

  lemma {:induction false} WriterRecordsDecode(codec: Codec, b: Boundary, chainId: u64, records: seq<Record>)
    requires forall i :: 0 <= i < |records| ==> WriterEntry(codec, b, chainId, records[i])
    ensures DecodeRecords(codec, records).Ok?
    decreases |records|
  {
    if records != [] {
      WriterRecordsDecode(codec, b, chainId, records[1..]);
    }
  }

  /**
   The read half of the exactness: a read of a one-writer stream always decodes, is empty
   exactly when nothing lies past the checkpoint, builds exactly when the expected entry was
   not trimmed, and is a gap otherwise.
   */
  lemma ReadIsExact(codec: Codec, c: Checkpoint, log: Log, first: nat, next: nat, count: nat)
    requires WriterLog(codec, c.boundary, c.chainId, log, first, next)
    requires Printed(c) && count > 0
    ensures var records := XRead(log, c.entryId, count);
      && DecodeRecords(codec, records).Ok?
      && (records == [] <==> next <= c.lastSeq + 1 || first == next)
      && var built := BuildBatch(codec, c, DecodeRecords(codec, records).value);
         if records == [] || first <= c.lastSeq + 1 then built.Ok? else built == Err(RedisGap)
  {
    var records := XRead(log, c.entryId, count);
    WriterReads(codec, c, log, first, next, count);
    if records != [] {
      if first <= c.lastSeq + 1 {
        NoFalseGapOnRead(codec, c, log, first, next, count);
      } else {
        WriterPosition(codec, c, log, first, next);
        ReadFindsExpected(log, c, count);
        UnexpectedFirstGaps(codec, c, records);
      }
    }
  }

  lemma WriterReads(codec: Codec, c: Checkpoint, log: Log, first: nat, next: nat, count: nat)
    requires WriterLog(codec, c.boundary, c.chainId, log, first, next)
    requires Printed(c) && count > 0
    ensures var records := XRead(log, c.entryId, count);
      && DecodeRecords(codec, records).Ok?
      && (records == [] <==> next <= c.lastSeq + 1 || first == next)
  {
    var records := XRead(log, c.entryId, count);
    PrintedIdReadsBack(c.boundary.generation, c.lastSeq);
    var k := RecordsAfterIsSuffix(log.records, CheckpointId(c));
    forall i | 0 <= i < |records| ensures WriterEntry(codec, c.boundary, c.chainId, records[i]) {
      assert records[i] == log.records[k + i];
    }
    WriterRecordsDecode(codec, c.boundary, c.chainId, records);
    if first < next {
      assert log.records[next - first - 1].id.sequence == next - 1;
    }
  }
}
