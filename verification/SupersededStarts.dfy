/** Which number the trackers wait at while Starts supersede one another. */
module SupersededStarts {
  import opened Wrappers
  import opened Wire
  import opened Contracts
  import opened EntryIds
  import opened Trackers
  import opened Replay
  import opened StateStores
  import opened Subscription
  import opened Batches
  import opened RecoveryInvariant
  import opened RecoveryCommit
  import opened RecoveryRuns

  predicate Settles(m: ReplayMessage) {
    m.envelope.payload.Ordinary() || m.envelope.payload.Commit?
  }

  /** How many messages the run has up to and including its last ordinary entry or commit. */
  function SettledCount(ms: seq<ReplayMessage>): (n: nat)
    ensures n <= |ms|
    ensures n > 0 ==> Settles(ms[n - 1])
    ensures forall i :: n <= i < |ms| ==> !Settles(ms[i])
    decreases |ms|
  {
    if ms == [] then 0
    else if Settles(ms[|ms| - 1]) then |ms|
    else SettledCount(ms[..|ms| - 1])
  }

  /** A recovery is open exactly when unsettled messages are left, and the first of them is its Start. */
  ghost predicate OpenSince(ms: seq<ReplayMessage>, recovery: Option<Assembly>) {
    && (recovery.Some? <==> SettledCount(ms) < |ms|)
    && (SettledCount(ms) < |ms| ==> ms[SettledCount(ms)].envelope.payload.Start?)
  }

  /** The trackers wait at `next`, the number after the last settled message. */
  ghost predicate Waiting(start: u64, ms: seq<ReplayMessage>, sub: Sub, c: Checkpoint, next: u64) {
    && |sub.processors| > 0
    && c.lastSeq == start + |ms|
    && next == start + SettledCount(ms) + 1
    && OpenSince(ms, sub.recovery)
    && Inv(sub, c, next)
  }

  lemma SettledStep(ms: seq<ReplayMessage>, m: ReplayMessage)
    ensures SettledCount(ms + [m]) == if Settles(m) then |ms| + 1 else SettledCount(ms)
  {
    assert (ms + [m])[..|ms|] == ms;
  }

  /** How one applied message opens, extends or settles a recovery. */
  ghost predicate Moves(before: Option<Assembly>, m: ReplayMessage, after: Option<Assembly>) {
    var payload := m.envelope.payload;
    && (payload.Start? ==> after.Some?)
    && (payload.Chunk? || payload.CatchUp? ==> before.Some? && after.Some?)
    && (payload.Commit? || !payload.Recovery() ==> Settles(m) && after.None?)
  }

  lemma RecoveryMoves(codec: Codec, sub: Sub, c: Checkpoint, next: u64, m: ReplayMessage)
    requires Inv(sub, c, next) && Follows(c, m) && |sub.processors| > 0 && ApplyOne(codec, sub, m).done.Ok?
    ensures Moves(sub.recovery, m, ApplyOne(codec, sub, m).sub.recovery)
    ensures !m.envelope.payload.Recovery() ==> sub.recovery.None? && m.envelope.payload.Ordinary()
  {
    if m.envelope.payload.Recovery() {
      TransactionMoves(codec, sub, m);
    } else {
      OrdinaryStep(codec, sub, c, next, m);
    }
  }

  lemma TransactionMoves(codec: Codec, sub: Sub, m: ReplayMessage)
    requires m.envelope.payload.Recovery() && ApplyOne(codec, sub, m).done.Ok?
    ensures Moves(sub.recovery, m, ApplyOne(codec, sub, m).sub.recovery)
  {
  }

  lemma OpenSinceStep(ms: seq<ReplayMessage>, before: Option<Assembly>, m: ReplayMessage, after: Option<Assembly>)
    requires OpenSince(ms, before) && Moves(before, m, after)
    ensures OpenSince(ms + [m], after)
  {
    SettledStep(ms, m);
    var n := SettledCount(ms);
    if n < |ms| {
      assert (ms + [m])[n] == ms[n];
    }
  }

  lemma StepWaits(codec: Codec, start: u64, ms: seq<ReplayMessage>, sub: Sub, c: Checkpoint, next: u64, m: ReplayMessage)
    requires Waiting(start, ms, sub, c, next) && Follows(c, m) && ApplyOne(codec, sub, m).done.Ok?
    ensures NextAfter(sub, m, next) <= U64_MAX
    ensures Waiting(start, ms + [m], After(codec, sub, m), m.checkpointAfter, NextAfter(sub, m, next))
  {
    assert [m][0] == m;
    SettledStep(ms, m);
    StepKeepsInv(codec, sub, c, next, m);
    RecoveryMoves(codec, sub, c, next, m);
    OpenSinceStep(ms, sub.recovery, m, After(codec, sub, m).recovery);
  }

  ghost function WaitingFrom(start: u64): Relation {
    (run, s, at) => exists next: u64 :: Waiting(start, run, s, at, next)
  }

  lemma EveryStepWaits(codec: Codec, start: u64)
    ensures Kept(StepOf(codec), WaitingFrom(start))
  {
    forall run, s, at, m ensures KeptAt(StepOf(codec), WaitingFrom(start), run, s, at, m) {
      if Follows(at, m) && ApplyOne(codec, s, m).done.Ok? {
        if next: u64 :| Waiting(start, run, s, at, next) {
          StepWaits(codec, start, run, s, at, next, m);
        }
      }
    }
  }

  /**
   The trackers expect the number after the last ordinary entry or commit of the run. While a
   recovery is open that is the number of the first Start since then.
   */
  ghost predicate ExpectFirstStart(c: Checkpoint, items: seq<ReplayMessage>, sub: Sub) {
    var n := SettledCount(items);
    && c.lastSeq + n + 1 <= U64_MAX
    && TrackersAt(sub, c.lastSeq + n + 1)
    && (sub.recovery.Some? <==> n < |items|)
    && (n < |items| ==> items[n].envelope.payload.Start? && items[n].entry.messageSeq == c.lastSeq + n + 1)
  }

  lemma WaitingMeans(c: Checkpoint, items: seq<ReplayMessage>, sub: Sub, at: Checkpoint)
    requires WaitingFrom(c.lastSeq)(items, sub, at) && Contiguous(c, items)
    ensures ExpectFirstStart(c, items, sub)
  {
  }

  /** Over every run, whatever Starts superseded one another. */
  lemma TrackersExpectFirstStart(codec: Codec, sub: Sub, c: Checkpoint, items: seq<ReplayMessage>)
    requires Bootstrapped(sub, c) && Contiguous(c, items)
    requires ApplyBatch(codec, sub, c, items).done.Ok?
    ensures ExpectFirstStart(c, items, ApplyBatch(codec, sub, c, items).sub)
  {
    BootstrapWaits(sub, c);
    EveryStepWaits(codec, c.lastSeq);
    BatchKeeps(StepOf(codec), WaitingFrom(c.lastSeq), [], sub, c, items);
    assert [] + items == items;
    WaitingMeans(c, items, ApplyBatch(codec, sub, c, items).sub, CheckpointAfter(c, items));
  }

  lemma BootstrapWaits(sub: Sub, c: Checkpoint)
    requires Bootstrapped(sub, c)
    ensures WaitingFrom(c.lastSeq)([], sub, c)
  {
    assert Waiting(c.lastSeq, [], sub, c, c.lastSeq + 1);
  }

  // A concrete superseding Start.

  const BOUNDARY := Boundary("key", "stream", "snap", 1, 0, 0)

  const LIVE := Processor(Native, Native, Tracker(Live("stream", 1, "snap", {Native}), Some(1)), [],
                          Store(Content(4, 6, map[]), false), 0, None, "")

  const SUB := Sub([Prepared(LIVE, BOUNDARY)], BOUNDARY, 1, None, None)

  function Announced(id: string, seqNo: u64): Manifest
    requires seqNo <= U64_MAX - 2
  {
    Manifest(id, 5, [Native], 1, 1, [1], ["d"], "d", 0, seqNo + 2)
  }

  function StartMessage(id: string, seqNo: u64): ReplayMessage
    requires seqNo <= U64_MAX - 2
  {
    ReplayMessage(PrintEntryId(1, seqNo), StreamEntry(1, "stream", seqNo, 5, None, {Native}, 0, id),
                  Envelope("stream", seqNo, Start(Announced(id, seqNo))),
                  Checkpoint(BOUNDARY, PrintEntryId(1, seqNo), seqNo, 1))
  }

  lemma AnnouncedIsValid(id: string, seqNo: u64)
    requires seqNo <= U64_MAX - 2 && !Blank(id)
    ensures ValidManifest(Announced(id, seqNo))
  {
    assert [Native][1..] == [];
    assert "d"[0] == 'd';
  }

  /** The Start is new to the subscription, and newer than its stores. */
  predicate Fits(sub: Sub, id: string, seqNo: u64) {
    && seqNo <= U64_MAX - 2 && !Blank(id)
    && (forall i :: 0 <= i < |sub.processors| ==> sub.processors[i].processor.store.content.version < 5)
    && (sub.recovery.Some? ==> sub.recovery.value.manifest != Announced(id, seqNo))
  }

  ghost predicate Opens(sub: Sub, id: string, seqNo: u64, r: Applied)
    requires seqNo <= U64_MAX - 2
  {
    && r.done.Ok?
    && r.sub.recovery == Some(Assembly(Announced(id, seqNo), map[], map[]))
    && |r.sub.processors| == |sub.processors|
    && forall i :: 0 <= i < |sub.processors| ==>
         r.sub.processors[i].processor.store.content == sub.processors[i].processor.store.content
  }

  /** A meaning of messages under which a fitting Start is accepted. */
  ghost predicate AcceptsStarts(step: Stepper) {
    forall sub, id, seqNo :: Fits(sub, id, seqNo) ==> Opens(sub, id, seqNo, step(sub, StartMessage(id, seqNo)))
  }

  lemma StartAccepted(codec: Codec, sub: Sub, id: string, seqNo: u64)
    requires Fits(sub, id, seqNo)
    ensures Opens(sub, id, seqNo, ApplyOne(codec, sub, StartMessage(id, seqNo)))
  {
    AnnouncedIsValid(id, seqNo);
    FencePointwise(sub.processors, 0, Announced(id, seqNo));
  }

  lemma StartsAreAccepted(codec: Codec)
    ensures AcceptsStarts(StepOf(codec))
  {
    forall sub, id, seqNo | Fits(sub, id, seqNo)
      ensures Opens(sub, id, seqNo, StepOf(codec)(sub, StartMessage(id, seqNo)))
    {
      StartAccepted(codec, sub, id, seqNo);
    }
  }

  lemma SecondSupersedes(step: Stepper, sub: Sub, c: Checkpoint)
    requires AcceptsStarts(step) && Fits(sub, "one", 1) && sub.recovery.None?
    ensures var r := BatchOf(step, sub, c, [StartMessage("one", 1), StartMessage("two", 2)]);
      r.done.Ok? && r.sub.recovery == Some(Assembly(Announced("two", 2), map[], map[]))
  {
    var m1, m2 := StartMessage("one", 1), StartMessage("two", 2);
    var first := step(sub, m1);
    var one := Marked(first.sub, m1);
    assert "two"[0] == 't' && Fits(one, "two", 2);
    var second := step(one, m2);
    var two := Marked(second.sub, m2);
    assert [m1, m2][1..] == [m2] && [m2][1..] == [];
    assert BatchOf(step, two, m2.checkpointAfter, []).done.Ok?;
    assert BatchOf(step, one, m1.checkpointAfter, [m2]) == BatchOf(step, two, m2.checkpointAfter, []);
  }

  /** There is such a subscription: one native backend at the start of a stream. */
  lemma SubIsBootstrapped(sub: Sub, c: Checkpoint)
    requires sub == SUB && c == NewCheckpoint(sub.boundary, sub.chainId)
    ensures Bootstrapped(sub, c) && sub.boundary == BOUNDARY && Fits(sub, "one", 1)
  {
    assert "key"[0] == 'k' && "stream"[0] == 's' && "snap"[0] == 's' && "one"[0] == 'o';
    assert Inv(sub, c, 1);
  }

  lemma TwoStartsFollow(c: Checkpoint, items: seq<ReplayMessage>)
    requires c == NewCheckpoint(BOUNDARY, 1) && items == [StartMessage("one", 1), StartMessage("two", 2)]
    ensures Contiguous(c, items) && SettledCount(items) == 0
  {
    assert items[..1][..0] == [];
    assert SettledCount(items[..1]) == 0;
  }

  /**
   Entries 1 and 2 both announce recoveries. The second supersedes the first, and every
   tracker still waits at 1, not at the open recovery's own Start, whatever the decoders do.
   */
  lemma SecondStartKeepsFirstNumber(codec: Codec, sub: Sub, c: Checkpoint, items: seq<ReplayMessage>)
    requires Bootstrapped(sub, c) && c == NewCheckpoint(BOUNDARY, 1) && Fits(sub, "one", 1)
    requires items == [StartMessage("one", 1), StartMessage("two", 2)]
    ensures Contiguous(c, items)
    ensures var r := ApplyBatch(codec, sub, c, items);
      && r.done.Ok? && r.sub.recovery.Some? && StartSeq(r.sub.recovery.value.manifest) == 2
      && TrackersAt(r.sub, 1)
  {
    TwoStartsFollow(c, items);
    StartsAreAccepted(codec);
    SecondSupersedes(StepOf(codec), sub, c);
    TrackersExpectFirstStart(codec, sub, c, items);
  }
}
