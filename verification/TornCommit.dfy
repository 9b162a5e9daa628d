/** A concrete run whose last commit swaps a store and still fails. */
module TornCommit {
  import opened Wrappers
  import opened Wire
  import opened Contracts
  import opened EntryIds
  import opened Trackers
  import opened Replay
  import opened RedisLog
  import opened StateStores
  import opened Subscription
  import opened Batches
  import opened RecoveryInvariant
  import opened RecoveryCommit
  import opened RecoveryRuns
  import opened World

  const BOUNDARY := Boundary("key", "stream", "snap", 1, U64_MAX - 3, 0)

  const REPLACEMENT: seq<Envelope> := [
    Envelope("stream", 1, SnapshotStart("snap", 1, [Native], 1)),
    Envelope("stream", 2, SnapshotChunk("snap", 0, [SnapshotPartition(Native, 7, [], [], map[])])),
    Envelope("stream", 3, SnapshotEnd("snap"))]

  const MANIFEST := Manifest("r", 5, [Native], 1, 1, [1], ["d"], "d", 0, U64_MAX)

  const CHUNK := RecoveryChunk("r", 5, [Native], 0, 1, "d", "x")

  const COMMIT := RecoveryCommit("r", 5, [Native], "d", 0, U64_MAX)

  /** The payload each entry's JSON stands for. */
  function PayloadOf(json: string): Option<(u64, Payload)> {
    if json == "start" then Some((U64_MAX - 2, Start(MANIFEST)))
    else if json == "chunk" then Some((U64_MAX - 1, Chunk(CHUNK)))
    else if json == "commit" then Some((U64_MAX, Commit(COMMIT)))
    else None
  }

  function EntryOf(json: string): Option<StreamEntry> {
    match PayloadOf(json)
    case None => None
    case Some((seqNo, _)) => Some(StreamEntry(1, "stream", seqNo, 5, None, {Native}, 0, json))
  }

  function EnvelopeOf(json: string): Option<Envelope> {
    match PayloadOf(json)
    case None => None
    case Some((seqNo, payload)) => Some(Envelope("stream", seqNo, payload))
  }

  function ToyCodec(): Codec {
    Codec(Protocols(s => None, c => None),
          EntryOf, EnvelopeOf,
          s => Some(REPLACEMENT),
          s => "d", s => 1,
          (k, n, e) => Some(1),
          (b, ms) => None, (b, ms) => Some(None), ms => true, (u, v) => u)
  }

  const LIVE := Processor(Native, Native, Tracker(Live("stream", 1, "snap", {Native}), Some(U64_MAX - 2)), [],
                          Store(Content(4, 6, map[]), false), 0, None, "")

  const SUB := Sub([Prepared(LIVE, BOUNDARY)], BOUNDARY, 1, None, None)

  const FIRST := Record(EntryId(1, U64_MAX - 2), "start")
  const SECOND := Record(EntryId(1, U64_MAX - 1), "chunk")
  const LAST := Record(EntryId(1, U64_MAX), "commit")

  /** A bootstrapped consumer three entries before the end of the number range. */
  function Opening(): World {
    World(Log([FIRST, SECOND, LAST], LAST.id), {FIRST, SECOND, LAST}, {}, Reading, SUB, NewCheckpoint(BOUNDARY, 1), [],
          false)
  }

  lemma OneBackendIsUnique()
    ensures ValidateUnique([Native]).Ok? && BackendSet([Native]) == {Native}
  {
    assert [Native][1..] == [];
    assert [Native][0] == Native;
  }

  lemma WordsAreNotBlank()
    ensures !Blank("r") && !Blank("d") && !Blank("x") && !Blank("key") && !Blank("stream") && !Blank("snap")
    ensures !Blank("start") && !Blank("chunk") && !Blank("commit")
  {
    assert "r"[0] == 'r' && "d"[0] == 'd' && "x"[0] == 'x' && "key"[0] == 'k' && "stream"[0] == 's' && "snap"[0] == 's';
    assert "start"[0] == 's' && "chunk"[0] == 'c' && "commit"[0] == 'c';
  }

  // The read.

  lemma EntriesDecode(record: Record)
    requires record in {FIRST, SECOND, LAST}
    ensures DecodeEntry(ToyCodec(), record.fields) == Ok(EntryOf(record.fields).value)
  {
    OneBackendIsUnique();
    WordsAreNotBlank();
  }

  predicate IsStart(m: ReplayMessage) {
    m.envelope.payload == Start(MANIFEST) && Some(m.entry) == EntryOf("start")
    && m.checkpointAfter.lastSeq == m.entry.messageSeq
  }

  predicate IsChunk(m: ReplayMessage) {
    m.envelope.payload == Chunk(CHUNK) && Some(m.entry) == EntryOf("chunk")
    && m.checkpointAfter.lastSeq == m.entry.messageSeq
  }

  predicate IsCommit(m: ReplayMessage) {
    m.envelope.payload == Commit(COMMIT) && Some(m.entry) == EntryOf("commit")
  }

  /** The three messages one read hands on. */
  ghost predicate Handed(items: seq<ReplayMessage>) {
    && |items| == 3
    && IsStart(items[0]) && IsChunk(items[1]) && IsCommit(items[2])
  }

  lemma OneWriter()
    ensures WriterLog(ToyCodec(), BOUNDARY, 1, Opening().log, U64_MAX - 2, U64_MAX + 1)
  {
    EntriesDecode(FIRST);
    EntriesDecode(SECOND);
    EntriesDecode(LAST);
  }

  lemma ReadHandsOn(w: World)
    requires w == Opening()
    ensures var records := XRead(w.log, w.checkpoint.entryId, 3);
      && records != [] && DecodeRecords(ToyCodec(), records).Ok?
      && var built := BuildBatch(ToyCodec(), w.checkpoint, DecodeRecords(ToyCodec(), records).value);
         built.Ok? && Contiguous(w.checkpoint, built.value) && Handed(built.value)
  {
    OneWriter();
    NoFalseGapOnRead(ToyCodec(), w.checkpoint, w.log, U64_MAX - 2, U64_MAX + 1, 3);
    ReadsAllThree(w.log, w.checkpoint);
    ThreeHandedOn(ToyCodec(), w.checkpoint, XRead(w.log, w.checkpoint.entryId, 3));
  }

  lemma ReadsAllThree(log: Log, c: Checkpoint)
    requires log.Log? && log.records == [FIRST, SECOND, LAST]
    requires Printed(c) && CheckpointId(c) == EntryId(1, U64_MAX - 3)
    ensures XRead(log, c.entryId, 3) == [FIRST, SECOND, LAST]
  {
    PrintedIdReadsBack(c.boundary.generation, c.lastSeq);
    var k := RecordsAfterIsSuffix(log.records, CheckpointId(c));
  }

  lemma ThreeHandedOn(codec: Codec, c: Checkpoint, records: seq<Record>)
    requires codec == ToyCodec() && records == [FIRST, SECOND, LAST] && DecodeRecords(codec, records).Ok?
    requires BuildBatch(codec, c, DecodeRecords(codec, records).value).Ok?
    ensures var items := BuildBatch(codec, c, DecodeRecords(codec, records).value).value;
      Contiguous(c, items) && Handed(items)
  {
    EachHandedOn(codec, c, records);
    var items := BuildBatch(codec, c, DecodeRecords(codec, records).value).value;
    assert HandsOn(codec, records[0], items[0]) && HandsOn(codec, records[1], items[1]);
    assert HandsOn(codec, records[2], items[2]);
    HandedOn(items);
  }

  /** `m` is what the read hands on for `record`. */
  ghost predicate HandsOn(codec: Codec, record: Record, m: ReplayMessage) {
    && DecodeEntry(codec, record.fields) == Ok(m.entry)
    && codec.envelope(m.entry.payloadJson) == Some(m.envelope)
    && m.checkpointAfter.lastSeq == m.entry.messageSeq
  }

  lemma EachHandedOn(codec: Codec, c: Checkpoint, records: seq<Record>)
    requires DecodeRecords(codec, records).Ok?
    requires BuildBatch(codec, c, DecodeRecords(codec, records).value).Ok?
    ensures var items := BuildBatch(codec, c, DecodeRecords(codec, records).value).value;
      && Contiguous(c, items)
      && |items| == |records|
      && forall i :: 0 <= i < |items| ==> HandsOn(codec, records[i], items[i])
  {
    DecodedRecords(codec, records);
    BuiltBatchIsContiguous(codec, c, DecodeRecords(codec, records).value);
  }

  lemma HandedOn(items: seq<ReplayMessage>)
    requires |items| == 3
    requires HandsOn(ToyCodec(), FIRST, items[0]) && HandsOn(ToyCodec(), SECOND, items[1])
    requires HandsOn(ToyCodec(), LAST, items[2])
    ensures Handed(items)
  {
    EntriesDecode(FIRST);
    EntriesDecode(SECOND);
    EntriesDecode(LAST);
  }

  // The first two messages.

  const FENCED := LIVE.(store := Store(LIVE.store.content, false))

  function Open(chunks: map<u32, RecoveryChunk>, reported: string): Sub {
    SUB.(processors := [Prepared(FENCED.(reported := reported), BOUNDARY)],
         recovery := Some(Assembly(MANIFEST, chunks, map[])))
  }

  lemma StartFences(ps: seq<Prepared>)
    requires ps == SUB.processors
    ensures FenceFrom(ps, 0, MANIFEST) == Swept([Prepared(FENCED, BOUNDARY)], DONE)
  {
    FencePointwise(ps, 0, MANIFEST);
    var r := FenceFrom(ps, 0, MANIFEST);
    assert Native in MANIFEST.backends;
    assert r.done.Ok? && r.done.value == Unit;
    assert r.processors == [Prepared(FENCED, BOUNDARY)];
  }

  lemma StartOpens(m: ReplayMessage)
    requires m.envelope.payload == Start(MANIFEST) && m.entry.messageSeq == U64_MAX - 2
    ensures ApplyStart(SUB, m.entry.messageSeq, MANIFEST).done.Ok?
    ensures ApplyStart(SUB, m.entry.messageSeq, MANIFEST).sub
         == SUB.(processors := [Prepared(FENCED, BOUNDARY)], recovery := Some(Assembly(MANIFEST, map[], map[])))
  {
    OneBackendIsUnique();
    WordsAreNotBlank();
    StartFences(SUB.processors);
  }

  lemma ChunkFits(s: Sub, reported: string, entry: StreamEntry)
    requires s == Open(map[], reported)
    ensures ApplyChunk(ToyCodec(), s, entry, CHUNK).done.Ok?
    ensures ApplyChunk(ToyCodec(), s, entry, CHUNK).sub == Open(map[0 := CHUNK], reported)
  {
    OneBackendIsUnique();
    WordsAreNotBlank();
    assert CheckChunk(ToyCodec(), s, s.recovery.value, entry, CHUNK).Ok?;
  }

  // The commit.

  lemma ReplacementReplays(p: Processor)
    requires p.backend == Native
    ensures Rebuild(ToyCodec(), 1, p, 5, REPLACEMENT, []).Ok?
  {
    var codec := ToyCodec();
    var p0 := RecoveryCopy(p, 5);
    OneBackendIsUnique();
    var p1 := ObserveEnvelope(codec, 1, p0, REPLACEMENT[0], None);
    assert p1.done.Ok?;
    var parts := REPLACEMENT[1].payload.partitions;
    assert SnapshotBackends(parts) == [Native] && parts[1..] == [] && [Native][1..] == [];
    assert CheckSnapshotContents(codec.protocols, parts).Ok?;
    var p2 := ObserveEnvelope(codec, 1, p1.processor, REPLACEMENT[1], None);
    assert Trackers.Observe(codec.protocols, p1.processor.tracker, REPLACEMENT[1]).Ok?;
    assert p2.done.Ok?;
    var p3 := ObserveEnvelope(codec, 1, p2.processor, REPLACEMENT[2], None);
    assert p3.done.Ok? && p3.processor.tracker.state.Live?;
    assert REPLACEMENT[1..][0] == REPLACEMENT[1] && REPLACEMENT[1..][1..][0] == REPLACEMENT[2];
    assert REPLACEMENT[1..][1..][1..] == [];
    assert ReplaySnapshot(codec, 1, p0, REPLACEMENT) == ReplaySnapshot(codec, 1, p1.processor, REPLACEMENT[1..]);
    assert ReplaySnapshot(codec, 1, p1.processor, REPLACEMENT[1..])
        == ReplaySnapshot(codec, 1, p2.processor, REPLACEMENT[1..][1..]);
    assert ReplaySnapshot(codec, 1, p2.processor, REPLACEMENT[1..][1..])
        == ReplaySnapshot(codec, 1, p3.processor, []);
  }

  lemma CommitIsReady(s: Sub, reported: string)
    requires s == Open(map[0 := CHUNK], reported)
    ensures CommitReady(ToyCodec(), s, U64_MAX, COMMIT)
  {
    OneBackendIsUnique();
    WordsAreNotBlank();
    assert CheckCommit(ToyCodec(), s, s.recovery.value, U64_MAX, COMMIT) == Ok(REPLACEMENT);
    ReplacementReplays(s.processors[0].processor);
    assert CandidatesFrom(ToyCodec(), s, 1, MANIFEST, REPLACEMENT, []) == Ok([]);
    assert ValuesInOrder(s.recovery.value.catchUps) == [];
  }

  lemma OpenKeepsInv(s: Sub, reported: string, c: Checkpoint)
    requires s == Open(map[0 := CHUNK], reported)
    requires Printed(c) && c.boundary == BOUNDARY && c.lastSeq == U64_MAX - 1 && c.chainId == 1
    ensures Inv(s, c, U64_MAX - 2)
  {
    OneBackendIsUnique();
    WordsAreNotBlank();
    assert AssemblyInOrder(s.recovery.value);
    assert AssemblyAt(s.recovery.value, c);
  }

  /** At the last sequence number the ready commit swaps the store, then fails to align. */
  lemma LastCommitTears(s: Sub, reported: string, m: ReplayMessage)
    requires s == Open(map[0 := CHUNK], reported) && IsCommit(m)
    ensures var r := ApplyOne(ToyCodec(), s, m);
      r.done.Err? && |r.sub.processors| == 1 && r.sub.processors[0].processor.store.content.version == 5
  {
    var c := Checkpoint(BOUNDARY, PrintEntryId(1, U64_MAX - 1), U64_MAX - 1, 1);
    OpenKeepsInv(s, reported, c);
    CommitIsReady(s, reported);
    LastSeqCommitFails(ToyCodec(), s, c, U64_MAX - 2, m);
    CandidatesNewer(ToyCodec(), s, c, U64_MAX - 2, U64_MAX, COMMIT);
    assert Named(s.processors[0], MANIFEST);
  }

  // The run.

  lemma SubscribedInv(sub: Sub, c: Checkpoint)
    requires sub == SUB && c == NewCheckpoint(sub.boundary, sub.chainId)
    ensures Bootstrapped(sub, c)
  {
    WordsAreNotBlank();
    assert Inv(sub, c, sub.boundary.exclusiveSeq + 1);
  }

  lemma OpeningBegins(w: World)
    requires w == Opening()
    ensures Begins(ToyCodec(), w) && w.sub.processors[0].processor.store.content.version == 4
  {
    SubscribedInv(w.sub, w.checkpoint);
  }

  lemma StartApplied(m: ReplayMessage)
    requires IsStart(m)
    ensures ApplyOne(ToyCodec(), SUB, m).done.Ok?
    ensures Marked(ApplyOne(ToyCodec(), SUB, m).sub, m) == Open(map[], m.checkpointAfter.entryId)
  {
    StartOpens(m);
    var marked := MarkReplay([Prepared(FENCED, BOUNDARY)], m.checkpointAfter);
    assert marked == [Prepared(FENCED.(reported := m.checkpointAfter.entryId), BOUNDARY)];
  }

  lemma ChunkApplied(s: Sub, reported: string, m: ReplayMessage)
    requires s == Open(map[], reported) && IsChunk(m)
    ensures ApplyOne(ToyCodec(), s, m).done.Ok?
    ensures Marked(ApplyOne(ToyCodec(), s, m).sub, m) == Open(map[0 := CHUNK], m.checkpointAfter.entryId)
  {
    ChunkFits(s, reported, m.entry);
    var marked := MarkReplay([Prepared(FENCED.(reported := reported), BOUNDARY)], m.checkpointAfter);
    assert marked == [Prepared(FENCED.(reported := m.checkpointAfter.entryId), BOUNDARY)];
  }

  /** Where a batch of three stands when its third message fails. */
  lemma ThirdFails(step: Stepper, sub: Sub, c: Checkpoint, items: seq<ReplayMessage>, one: Sub, two: Sub)
    requires |items| == 3
    requires step(sub, items[0]).done.Ok? && one == Marked(step(sub, items[0]).sub, items[0])
    requires step(one, items[1]).done.Ok? && two == Marked(step(one, items[1]).sub, items[1])
    requires step(two, items[2]).done.Err?
    ensures BatchOf(step, sub, c, items)
         == Batched(step(two, items[2]).sub, items[1].checkpointAfter, step(two, items[2]).done)
    ensures AppliedCount(step, sub, items) == 2
  {
    var rest, last := items[1..], items[1..][1..];
    assert rest[0] == items[1] && last[0] == items[2];
    assert AppliedCount(step, two, last) == 0;
    assert AppliedCount(step, one, rest) == 1;
    assert BatchOf(step, one, items[0].checkpointAfter, rest) == BatchOf(step, two, items[1].checkpointAfter, last);
  }

  // What the three messages do to the three states, for whichever meaning of a message.

  ghost predicate Starts(step: Stepper) {
    forall m :: IsStart(m) ==>
      step(SUB, m).done.Ok? && Marked(step(SUB, m).sub, m) == Open(map[], m.checkpointAfter.entryId)
  }

  ghost predicate Continues(step: Stepper) {
    forall m, reported :: IsChunk(m) ==>
      var s := Open(map[], reported);
      step(s, m).done.Ok? && Marked(step(s, m).sub, m) == Open(map[0 := CHUNK], m.checkpointAfter.entryId)
  }

  ghost predicate Tears(step: Stepper) {
    forall m, reported :: IsCommit(m) ==>
      var r := step(Open(map[0 := CHUNK], reported), m);
      r.done.Err? && |r.sub.processors| == 1 && r.sub.processors[0].processor.store.content.version == 5
  }

  lemma ToyStarts()
    ensures Starts(StepOf(ToyCodec()))
  {
    forall m | IsStart(m)
      ensures StepOf(ToyCodec())(SUB, m).done.Ok?
      ensures Marked(StepOf(ToyCodec())(SUB, m).sub, m) == Open(map[], m.checkpointAfter.entryId)
    {
      StartApplied(m);
    }
  }

  lemma ToyContinues()
    ensures Continues(StepOf(ToyCodec()))
  {
    forall m, reported | IsChunk(m)
      ensures StepOf(ToyCodec())(Open(map[], reported), m).done.Ok?
      ensures Marked(StepOf(ToyCodec())(Open(map[], reported), m).sub, m)
           == Open(map[0 := CHUNK], m.checkpointAfter.entryId)
    {
      ChunkApplied(Open(map[], reported), reported, m);
    }
  }

  lemma ToyTears()
    ensures Tears(StepOf(ToyCodec()))
  {
    forall m, reported | IsCommit(m)
      ensures var r := StepOf(ToyCodec())(Open(map[0 := CHUNK], reported), m);
        r.done.Err? && |r.sub.processors| == 1 && r.sub.processors[0].processor.store.content.version == 5
    {
      LastCommitTears(Open(map[0 := CHUNK], reported), reported, m);
    }
  }

  lemma BatchTears(step: Stepper, c: Checkpoint, items: seq<ReplayMessage>)
    requires Starts(step) && Continues(step) && Tears(step)
    requires c == NewCheckpoint(BOUNDARY, 1) && Handed(items)
    ensures var r := BatchOf(step, SUB, c, items);
      && r.done.Err? && |r.sub.processors| == 1 && r.sub.processors[0].processor.store.content.version == 5
    ensures AppliedCount(step, SUB, items) == 2
  {
    var m1, m2 := items[0], items[1];
    var one := Open(map[], m1.checkpointAfter.entryId);
    var two := Open(map[0 := CHUNK], m2.checkpointAfter.entryId);
    ThirdFails(step, SUB, c, items, one, two);
  }

  lemma ReadTears(k: Consumer, w: World)
    requires k.codec == ToyCodec() && k.count == 3 && w == Opening()
    requires Starts(k.step) && Continues(k.step) && Tears(k.step)
    ensures Torn(ReadStep(k, w))
  {
    ReadHandsOn(w);
    var records := XRead(w.log, w.checkpoint.entryId, 3);
    var items := BuildBatch(ToyCodec(), w.checkpoint, DecodeRecords(ToyCodec(), records).value).value;
    BatchTears(k.step, w.checkpoint, items);
  }

  lemma ToySteps(k: Consumer)
    requires k == Client(ToyCodec(), 3)
    ensures Starts(k.step) && Continues(k.step) && Tears(k.step)
  {
    ToyStarts();
    ToyContinues();
    ToyTears();
  }

  /** The consumer stopped on a failed message, its first two applied, with the new store live. */
  predicate Torn(after: World) {
    && after.phase == Stopped(ApplyExit)
    && |after.delivered| == 2
    && |after.sub.processors| == 1 && after.sub.processors[0].processor.store.content.version == 5
  }

  /**
   The all-or-nothing guarantee has a real exception, on a run: a bootstrapped consumer reads
   Start, Chunk and Commit in one batch, and the commit fails after it swapped the store.
   */
  lemma CommitCanTear(k: Consumer, w: World)
    requires k == Client(ToyCodec(), 3) && w == Opening()
    ensures Begins(k.codec, w) && w.sub.processors[0].processor.store.content.version == 4
    ensures Torn(Run(k, w, [Read]))
  {
    OpeningBegins(w);
    ToySteps(k);
    ReadTears(k, w);
    OneStep(k, w, Read);
  }
}
