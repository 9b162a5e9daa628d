/**
 The consumer against a live stream: writers append, retention trims, operators delete or a
 new writer takes over, transport fails, and between any two of these the consumer reads,
 inspects and applies. A run is any sequence of such steps.
 */
module World {
  import opened Wrappers
  import opened Wire
  import opened EntryIds
  import opened Replay
  import opened RedisLog
  import opened Subscription
  import opened Batches
  import opened RecoveryInvariant
  import opened RecoveryCommit
  import opened RecoveryRuns
  import opened PoolRuns

  datatype Exit = ReplayExit(error: ReplayError) | ApplyExit | TimeoutExit

  /** What one consumer is built from: its decoders, the meaning of one message, and XREAD's count. */
  datatype Consumer = Consumer(codec: Codec, step: Stepper, count: nat)

  /** The consumer the program runs. */
  function Client(codec: Codec, count: nat): Consumer {
    Consumer(codec, StepOf(codec), count)
  }

  /** Reading, or inspecting the stream after an empty read, or stopped for a rebuild. */
  datatype Phase = Reading | Inspecting | Stopped(exit: Exit)

  /**
   `history` is every record any writer ever appended, `deleted` those whose stream was
   deleted since, `delivered` every message applied.
   */
  datatype World = World(
    log: Log,
    history: set<Record>,
    deleted: set<Record>,
    phase: Phase,
    sub: Sub,
    checkpoint: Checkpoint,
    delivered: seq<ReplayMessage>,
    caughtUpOnce: bool)

  datatype Step = LogStep(change: LogChange) | TransportFailure | Read | Inspect | RecoveryTimeout

  function Deliver(k: Consumer, w: World, items: seq<ReplayMessage>, drained: bool): World {
    var r := BatchOf(k.step, w.sub, w.checkpoint, items);
    w.(sub := r.sub,
       checkpoint := r.checkpoint,
       delivered := w.delivered + items[..AppliedCount(k.step, w.sub, items)],
       caughtUpOnce := w.caughtUpOnce || (r.done.Ok? && drained),
       phase := if r.done.Ok? then Reading else Stopped(ApplyExit))
  }

  function ReadStep(k: Consumer, w: World): World {
    var records := XRead(w.log, w.checkpoint.entryId, k.count);
    match DecodeRecords(k.codec, records)
    case Err(e) => w.(phase := Stopped(ReplayExit(e)))
    case Ok(messages) =>
      if messages == [] then w.(phase := Inspecting)
      else
        match BuildBatch(k.codec, w.checkpoint, messages)
        case Err(e) => w.(phase := Stopped(ReplayExit(e)))
        case Ok(items) => Deliver(k, w, items, |messages| < k.count)
  }

  function InspectStep(w: World): World {
    match EmptyPollAction(w.checkpoint, XInfo(w.log))
    case Err(e) => w.(phase := Stopped(ReplayExit(e)))
    case Ok(CaughtUp) => w.(phase := Reading, caughtUpOnce := true)
    case Ok(Pending) => w.(phase := Reading)
  }

  function LogChanges(w: World, change: LogChange): World {
    var log := Change(w.log, change);
    var accepted := if change.Append? && log != w.log then {change.record} else {};
    w.(log := log,
       history := w.history + accepted,
       deleted := if change.Delete? then w.history else w.deleted)
  }

  function Perform(k: Consumer, w: World, step: Step): World {
    match step
    case LogStep(change) => LogChanges(w, change)
    case TransportFailure => if w.phase.Stopped? then w else w.(phase := Reading)
    case Read => if w.phase.Reading? then ReadStep(k, w) else w
    case Inspect => if w.phase.Inspecting? then InspectStep(w) else w
    case RecoveryTimeout =>
      if !w.phase.Stopped? && w.sub.recovery.Some? then w.(phase := Stopped(TimeoutExit)) else w
  }

  function Run(k: Consumer, w: World, steps: seq<Step>): World
    decreases |steps|
  {
    if steps == [] then w else Run(k, Perform(k, w, steps[0]), steps[1..])
  }

  lemma OneStep(k: Consumer, w: World, step: Step)
    ensures Run(k, w, [step]) == Perform(k, w, step)
  {
    assert [step][1..] == [];
    assert Run(k, Perform(k, w, step), []) == Perform(k, w, step);
  }

  lemma TwoSteps(k: Consumer, w: World, one: Step, two: Step)
    ensures Run(k, w, [one, two]) == Perform(k, Perform(k, w, one), two)
  {
    assert [one, two][1..] == [two];
    OneStep(k, Perform(k, w, one), two);
  }

  // Safety of every run.

  /** `m` is a record some writer appended under that very id, decoded. */
  ghost predicate CameFrom(codec: Codec, history: set<Record>, m: ReplayMessage) {
    exists r :: r in history
      && PrintId(r.id) == m.entryId
      && DecodeEntry(codec, r.fields) == Ok(m.entry)
      && codec.envelope(m.entry.payloadJson) == Some(m.envelope)
  }

  ghost predicate AllCame(codec: Codec, history: set<Record>, ms: seq<ReplayMessage>) {
    forall i :: 0 <= i < |ms| ==> CameFrom(codec, history, ms[i])
  }

  lemma AllCameJoins(codec: Codec, history: set<Record>, a: seq<ReplayMessage>, b: seq<ReplayMessage>)
    requires AllCame(codec, history, a) && AllCame(codec, history, b)
    ensures AllCame(codec, history, a + b)
  {
  }

  ghost predicate LogInHistory(log: Log, history: set<Record>) {
    log.Log? ==> forall i :: 0 <= i < |log.records| ==> log.records[i] in history
  }

  /** No message has failed to apply; that failure is the only stop that may leave half a change. */
  predicate Intact(w: World) {
    !(w.phase.Stopped? && w.phase.exit.ApplyExit?)
  }

  /** The consumer's state is that of applying everything delivered as one batch. */
  ghost predicate AppliedWhole(k: Consumer, origin: Sub, start: Checkpoint, w: World) {
    var r := BatchOf(k.step, origin, start, w.delivered);
    r.done.Ok? && r.sub == w.sub && r.checkpoint == w.checkpoint
  }

  ghost predicate WorldInv(k: Consumer, origin: Sub, start: Checkpoint, w: World) {
    && Ordered(w.log)
    && LogInHistory(w.log, w.history)
    && Contiguous(start, w.delivered)
    && w.checkpoint == CheckpointAfter(start, w.delivered)
    && AllCame(k.codec, w.history, w.delivered)
    && (Intact(w) ==> AppliedWhole(k, origin, start, w))
  }

  lemma ContiguousJoins(start: Checkpoint, a: seq<ReplayMessage>, b: seq<ReplayMessage>)
    requires Contiguous(start, a) && Contiguous(CheckpointAfter(start, a), b)
    ensures Contiguous(start, a + b)
    ensures CheckpointAfter(start, a + b) == CheckpointAfter(CheckpointAfter(start, a), b)
  {
    assert forall i :: 0 <= i < |a| ==> (a + b)[i] == a[i];
    assert forall i :: |a| <= i < |a + b| ==> (a + b)[i] == b[i - |a|];
  }

  lemma DeliveredState(k: Consumer, origin: Sub, start: Checkpoint, w: World, items: seq<ReplayMessage>)
    requires AppliedWhole(k, origin, start, w)
    ensures BatchOf(k.step, origin, start, w.delivered + items) == BatchOf(k.step, w.sub, w.checkpoint, items)
  {
    BatchBoundariesDoNotMatter(k.step, origin, start, w.delivered, items);
  }

  lemma PrefixDelivers(codec: Codec, c: Checkpoint, history: set<Record>, items: seq<ReplayMessage>, n: nat)
    requires n <= |items| && Contiguous(c, items) && AllCame(codec, history, items)
    ensures Contiguous(c, items[..n]) && AllCame(codec, history, items[..n])
  {
  }

  lemma DeliverKeepsInv(k: Consumer, origin: Sub, start: Checkpoint, w: World, items: seq<ReplayMessage>, drained: bool)
    requires WorldInv(k, origin, start, w) && !w.phase.Stopped?
    requires Contiguous(w.checkpoint, items) && AllCame(k.codec, w.history, items)
    ensures WorldInv(k, origin, start, Deliver(k, w, items, drained))
  {
    var n := AppliedCount(k.step, w.sub, items);
    var after := Deliver(k, w, items, drained);
    PrefixDelivers(k.codec, w.checkpoint, w.history, items, n);
    DeliveredPrefix(k.codec, start, w, items[..n], after.delivered);
    assert after.checkpoint == CheckpointAfter(start, after.delivered) by {
      FailureKeepsCheckpoint(k.step, w.sub, w.checkpoint, items);
    }
    DeliverApplies(k, origin, start, w, items, drained);
  }

  lemma DeliverApplies(k: Consumer, origin: Sub, start: Checkpoint, w: World, items: seq<ReplayMessage>, drained: bool)
    requires AppliedWhole(k, origin, start, w)
    ensures var after := Deliver(k, w, items, drained);
      Intact(after) ==> AppliedWhole(k, origin, start, after)
  {
    if BatchOf(k.step, w.sub, w.checkpoint, items).done.Ok? {
      FailureKeepsCheckpoint(k.step, w.sub, w.checkpoint, items);
      assert items[..AppliedCount(k.step, w.sub, items)] == items;
      DeliveredState(k, origin, start, w, items);
    }
  }

  lemma DeliveredPrefix(codec: Codec, start: Checkpoint, w: World, part: seq<ReplayMessage>, all: seq<ReplayMessage>)
    requires Contiguous(start, w.delivered) && w.checkpoint == CheckpointAfter(start, w.delivered)
    requires Contiguous(w.checkpoint, part) && all == w.delivered + part
    requires AllCame(codec, w.history, w.delivered) && AllCame(codec, w.history, part)
    ensures Contiguous(start, all)
    ensures CheckpointAfter(start, all) == CheckpointAfter(w.checkpoint, part)
    ensures AllCame(codec, w.history, all)
  {
    ContiguousJoins(start, w.delivered, part);
    AllCameJoins(codec, w.history, w.delivered, part);
  }

  lemma ReadRecordsAreLogged(log: Log, after: string, count: nat, history: set<Record>)
    requires Ordered(log) && LogInHistory(log, history)
    ensures var records := XRead(log, after, count);
      forall i :: 0 <= i < |records| ==> records[i] in history
  {
    if log.Log? && ParseEntryId(after).Some? {
      var k := RecordsAfterIsSuffix(log.records, ParseEntryId(after).value);
      var records := XRead(log, after, count);
      assert forall i :: 0 <= i < |records| ==> records[i] == log.records[k + i];
    }
  }

  lemma ReadKeepsInv(k: Consumer, origin: Sub, start: Checkpoint, w: World)
    requires WorldInv(k, origin, start, w) && w.phase.Reading?
    ensures WorldInv(k, origin, start, ReadStep(k, w))
  {
    var records := XRead(w.log, w.checkpoint.entryId, k.count);
    if DecodeRecords(k.codec, records).Ok? {
      var messages := DecodeRecords(k.codec, records).value;
      if messages != [] && BuildBatch(k.codec, w.checkpoint, messages).Ok? {
        var items := BuildBatch(k.codec, w.checkpoint, messages).value;
        ReadRecordsAreLogged(w.log, w.checkpoint.entryId, k.count, w.history);
        DecodedRecords(k.codec, records);
        BuiltBatchIsContiguous(k.codec, w.checkpoint, messages);
        BuiltFromMessages(k.codec, w.checkpoint, messages);
        forall i | 0 <= i < |items| ensures CameFrom(k.codec, w.history, items[i]) {
          assert records[i] in w.history;
        }
        DeliverKeepsInv(k, origin, start, w, items, |messages| < k.count);
      }
    }
  }

  lemma {:induction false} BuiltFromMessages(codec: Codec, c: Checkpoint, ms: seq<StreamMessage>)
    requires BuildBatch(codec, c, ms).Ok?
    ensures var items := BuildBatch(codec, c, ms).value;
      |items| == |ms| && forall i :: 0 <= i < |ms| ==> items[i].entryId == ms[i].entryId
    decreases |ms|
  {
    if ms != [] {
      var item := BuildOne(codec, c, ms[0]).value;
      BuiltFromMessages(codec, item.checkpointAfter, ms[1..]);
      assert forall i :: 0 < i < |ms| ==> ms[i] == ms[1..][i - 1];
    }
  }

  lemma HistoryGrows(codec: Codec, before: set<Record>, after: set<Record>, ms: seq<ReplayMessage>)
    requires before <= after && AllCame(codec, before, ms)
    ensures AllCame(codec, after, ms)
  {
    forall i | 0 <= i < |ms| ensures CameFrom(codec, after, ms[i]) {
      assert CameFrom(codec, before, ms[i]);
    }
  }

  lemma ChangeKeepsLog(w: World, change: LogChange)
    requires Ordered(w.log) && LogInHistory(w.log, w.history)
    ensures var after := LogChanges(w, change);
      Ordered(after.log) && LogInHistory(after.log, after.history)
  {
  }

  lemma LogStepKeepsInv(k: Consumer, origin: Sub, start: Checkpoint, w: World, change: LogChange)
    requires WorldInv(k, origin, start, w)
    ensures WorldInv(k, origin, start, LogChanges(w, change))
  {
    var after := LogChanges(w, change);
    ChangeKeepsLog(w, change);
    HistoryGrows(k.codec, w.history, after.history, w.delivered);
  }

  lemma InspectOnlyMovesPhase(w: World)
    ensures InspectStep(w) == w.(phase := InspectStep(w).phase, caughtUpOnce := InspectStep(w).caughtUpOnce)
  {
    match EmptyPollAction(w.checkpoint, XInfo(w.log)) {
      case Err(_) =>
      case Ok(CaughtUp) =>
      case Ok(Pending) =>
    }
  }

  lemma PhaseKeepsInv(k: Consumer, origin: Sub, start: Checkpoint, w: World, after: World)
    requires WorldInv(k, origin, start, w) && !w.phase.Stopped?
    requires after == w.(phase := after.phase, caughtUpOnce := after.caughtUpOnce)
    ensures WorldInv(k, origin, start, after)
  {
  }

  lemma StepKeepsWorldInv(k: Consumer, origin: Sub, start: Checkpoint, w: World, step: Step)
    requires WorldInv(k, origin, start, w)
    ensures WorldInv(k, origin, start, Perform(k, w, step))
  {
    match step {
      case LogStep(change) => LogStepKeepsInv(k, origin, start, w, change);
      case Read =>
        if w.phase.Reading? {
          ReadKeepsInv(k, origin, start, w);
        }
      case Inspect =>
        if w.phase.Inspecting? {
          InspectOnlyMovesPhase(w);
          PhaseKeepsInv(k, origin, start, w, InspectStep(w));
        }
      case _ =>
    }
  }

  lemma {:induction false} RunKeepsInv(k: Consumer, origin: Sub, start: Checkpoint, w: World, steps: seq<Step>)
    requires WorldInv(k, origin, start, w)
    ensures WorldInv(k, origin, start, Run(k, w, steps))
    decreases |steps|
  {
    if steps != [] {
      StepKeepsWorldInv(k, origin, start, w, steps[0]);
      RunKeepsInv(k, origin, start, Perform(k, w, steps[0]), steps[1..]);
    }
  }

  /** A consumer that has just bootstrapped, facing any ordered stream. */
  ghost predicate Begins(codec: Codec, w: World) {
    && Ordered(w.log)
    && LogInHistory(w.log, w.history)
    && w.phase.Reading?
    && Bootstrapped(w.sub, w.checkpoint)
    && w.delivered == []
  }

  /**
   The end-to-end theorem. Whatever happens to the stream, and wherever transport fails or
   batches end, the messages applied are boundary+1, boundary+2, ... of the snapshot's stream
   and generation, each one a record that was appended under that id; the checkpoint is the
   last of them; and unless a message failed to apply, its state is a function of that
   message sequence alone, each backend holding its reference content. A gap, a decoding
   error or a timeout stops the consumer in just that state.
   */
  lemma EveryRunIsFaithful(codec: Codec, count: nat, w: World, steps: seq<Step>)
    requires Begins(codec, w)
    ensures var after := Run(Client(codec, count), w, steps);
      && Contiguous(w.checkpoint, after.delivered)
      && after.checkpoint == CheckpointAfter(w.checkpoint, after.delivered)
      && AllCame(codec, after.history, after.delivered)
      && (Intact(after) ==>
            && after.sub == ApplyBatch(codec, w.sub, w.checkpoint, after.delivered).sub
            && |after.sub.processors| == |w.sub.processors|
            && forall i :: 0 <= i < |w.sub.processors| ==>
                 Some(after.sub.processors[i].processor.store.content)
                 == Reference(codec, w.sub.chainId, w.sub.processors[i].processor, after.delivered))
  {
    RunKeepsInv(Client(codec, count), w.sub, w.checkpoint, w, steps);
    var after := Run(Client(codec, count), w, steps);
    if Intact(after) {
      RunEqualsReference(codec, w.sub, w.checkpoint, after.delivered);
    }
  }

  /** So is every pool, its version, its block and whether it is served: read off what was delivered. */
  lemma EveryPoolIsFaithful(codec: Codec, count: nat, w: World, steps: seq<Step>)
    requires Begins(codec, w)
    ensures var after := Run(Client(codec, count), w, steps);
      Intact(after) ==> StoresTold(codec, w.sub, after.delivered, after.sub)
  {
    EveryRunIsFaithful(codec, count, w, steps);
    var after := Run(Client(codec, count), w, steps);
    if Intact(after) {
      RunKeepsInv(Client(codec, count), w.sub, w.checkpoint, w, steps);
      EveryPoolAsTold(codec, w.sub, w.checkpoint, after.delivered);
    }
  }

  /** The recovery timeout stops a consumer only while a recovery is open. */
  predicate TimedOutOpen(w: World) {
    w.phase.Stopped? && w.phase.exit.TimeoutExit? ==> w.sub.recovery.Some?
  }

  lemma {:induction false} TimeoutNeedsRecovery(k: Consumer, w: World, steps: seq<Step>)
    requires TimedOutOpen(w)
    ensures TimedOutOpen(Run(k, w, steps))
    decreases |steps|
  {
    if steps != [] {
      StepTimesOutOpen(k, w, steps[0]);
      TimeoutNeedsRecovery(k, Perform(k, w, steps[0]), steps[1..]);
    }
  }

  lemma StepTimesOutOpen(k: Consumer, w: World, step: Step)
    requires TimedOutOpen(w)
    ensures TimedOutOpen(Perform(k, w, step))
  {
    if step.Inspect? {
      InspectOnlyMovesPhase(w);
    } else if step.Read? && w.phase.Reading? {
      ReadNeverTimesOut(k, w);
    }
  }

  lemma ReadNeverTimesOut(k: Consumer, w: World)
    requires w.phase.Reading?
    ensures var phase := ReadStep(k, w).phase; !(phase.Stopped? && phase.exit.TimeoutExit?)
  {
    match DecodeRecords(k.codec, XRead(w.log, w.checkpoint.entryId, k.count)) {
      case Err(_) =>
      case Ok(_) =>
    }
  }

  // No false gap.

  /**
   One writer owns the stream and still retains the entry after the checkpoint, or has yet
   to write its very first entry.
   */
  ghost predicate Healthy(codec: Codec, w: World, first: nat, next: nat) {
    || (w.log.Missing? && w.checkpoint.lastSeq == 0)
    || (WriterLog(codec, w.checkpoint.boundary, w.checkpoint.chainId, w.log, first, next)
        && first <= w.checkpoint.lastSeq + 1 <= next)
  }

  /** Every state of the run faces a healthy stream. */
  ghost predicate HealthyRun(k: Consumer, w: World, steps: seq<Step>)
    decreases |steps|
  {
    && (exists first: nat, next: nat :: Healthy(k.codec, w, first, next))
    && (steps != [] ==> HealthyRun(k, Perform(k, w, steps[0]), steps[1..]))
  }

  lemma HealthyStepNoReplayExit(k: Consumer, w: World, step: Step, first: nat, next: nat)
    requires k.count > 0 && Printed(w.checkpoint) && Healthy(k.codec, w, first, next)
    requires !(w.phase.Stopped? && w.phase.exit.ReplayExit?)
    ensures var after := Perform(k, w, step);
      !(after.phase.Stopped? && after.phase.exit.ReplayExit?)
  {
    if w.log.Log? {
      if step.Read? && w.phase.Reading? {
        NoFalseGapOnRead(k.codec, w.checkpoint, w.log, first, next, k.count);
      } else if step.Inspect? && w.phase.Inspecting? {
        EmptyPollIsExact(k.codec, w.checkpoint, w.log, first, next);
      }
    }
  }

  /**
   While one writer owns the stream and the next entry is retained, no run ever stops with
   a replay error, however reads, inspections, appends and trims interleave.
   */
  lemma {:induction false} HealthyRunsNeverGap(k: Consumer, origin: Sub, start: Checkpoint, w: World,
                                               steps: seq<Step>)
    requires k.count > 0 && Printed(start) && WorldInv(k, origin, start, w)
    requires HealthyRun(k, w, steps)
    requires !(w.phase.Stopped? && w.phase.exit.ReplayExit?)
    ensures var after := Run(k, w, steps);
      !(after.phase.Stopped? && after.phase.exit.ReplayExit?)
    decreases |steps|
  {
    if steps != [] {
      var first: nat, next: nat :| Healthy(k.codec, w, first, next);
      HealthyStepNoReplayExit(k, w, steps[0], first, next);
      var one := Perform(k, w, steps[0]);
      StepKeepsWorldInv(k, origin, start, w, steps[0]);
      HealthyRunsNeverGap(k, origin, start, one, steps[1..]);
    }
  }
}
