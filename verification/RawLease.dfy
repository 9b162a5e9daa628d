/**
 The progress lease of the raw upstream stream: only a strict advance of the published
 native head extends it.
 */
module RawLease {
  import opened Wrappers
  import opened StreamHealths

  const NANOS_PER_MILLI: nat := 1_000_000

  /** An age as reported: whole milliseconds. */
  function Age(now: Instant, at: Instant): Duration {
    Since(now, at) / NANOS_PER_MILLI * NANOS_PER_MILLI
  }

  /** What the lease is counted from: the last head advance of this stream, else its start. */
  function Basis(h: Health): Option<Instant> {
    if h.lastUpdateAt.Some? then h.lastUpdateAt else h.startedAt
  }

  datatype Item = EndOfStream | FeedItem | FailedItem

  datatype Arrival = Arrival(at: Instant, item: Item)

  datatype Poll = Stale(at: Instant) | Received(arrival: Arrival)

  /**
   `next_broadcaster_raw_stream_message` polled at `now`, when the stream's next item arrives
   at the given moment or never.
   */
  function Next(cfg: Config, h: Health, now: Instant, arrival: Option<Arrival>): Poll {
    var age := if Basis(h).Some? then Age(now, Basis(h).value) else 0;
    if age >= cfg.readinessStale then Stale(now)
    else
      var deadline := now + (cfg.readinessStale - age);
      if arrival.Some? && arrival.value.at <= deadline then Received(arrival.value) else Stale(deadline)
  }

  /** What the service made of a raw feed message. */
  datatype Applied = Applied(published: bool, nativeProgress: Option<u64>)

  datatype RawExit = AdvancedTooLong | ApplyFailed

  /** The health operations of one raw update; `applied` is None when the service failed. */
  function RawUpdateOps(cfg: Config, h: Health, now: Instant, recordedAt: Instant, hasAdvanced: bool,
                        applied: Option<Applied>): seq<Op>
  {
    var sighting := if hasAdvanced then AdvancedSeen(now) else AdvancedCleared;
    if hasAdvanced && GraceExceeded(cfg, Apply(cfg, h, sighting), now) then [sighting]
    else if applied.Some? && applied.value.published && applied.value.nativeProgress.Some?
    then [sighting, Progressed(applied.value.nativeProgress.value, recordedAt)]
    else [sighting]
  }

  predicate GraceExceeded(cfg: Config, h: Health, now: Instant) {
    h.advanced.windowStart.Some? && Since(now, h.advanced.windowStart.value) >= cfg.resyncGrace
  }

  lemma OneOp(cfg: Config, h: Health, op: Op)
    ensures ApplyAll(cfg, h, [op]) == Apply(cfg, h, op)
  {
    assert [op][..0] == [];
  }

  lemma TwoOps(cfg: Config, h: Health, one: Op, two: Op)
    ensures ApplyAll(cfg, h, [one, two]) == Apply(cfg, Apply(cfg, h, one), two)
  {
    assert [one, two][..1] == [one];
    OneOp(cfg, h, one);
  }

  /** `handle_broadcaster_raw_update`, its effect on the health record. */
  method HandleRawUpdate(cfg: Config, health: StreamHealth, now: Instant, recordedAt: Instant, hasAdvanced: bool,
                         applied: Option<Applied>)
    returns (exit: Option<RawExit>)
    modifies health
    ensures health.Value()
         == ApplyAll(cfg, old(health.Value()), RawUpdateOps(cfg, old(health.Value()), now, recordedAt, hasAdvanced, applied))
    ensures exit ==
      if hasAdvanced && GraceExceeded(cfg, health.Value(), now) then Some(AdvancedTooLong)
      else if applied.None? then Some(ApplyFailed)
      else None
    ensures var was, now := old(health.Value()), health.Value();
      if exit.None? && applied.value.published && applied.value.nativeProgress.Some?
         && applied.value.nativeProgress.value > was.lastBlock
      then now.lastBlock == applied.value.nativeProgress.value && now.lastUpdateAt == Some(recordedAt)
      else now.lastBlock == was.lastBlock && now.lastUpdateAt == was.lastUpdateAt
  {
    ghost var before := health.Value();
    ghost var sighting := if hasAdvanced then AdvancedSeen(now) else AdvancedCleared;
    OneOp(cfg, before, sighting);
    if hasAdvanced {
      var _, elapsed := health.RecordAdvanced(cfg, now);
      if elapsed >= cfg.resyncGrace {
        return Some(AdvancedTooLong);
      }
    } else {
      health.ClearAdvanced(cfg);
    }
    if applied.None? {
      return Some(ApplyFailed);
    }
    if applied.value.published && applied.value.nativeProgress.Some? {
      TwoOps(cfg, before, sighting, Progressed(applied.value.nativeProgress.value, recordedAt));
      health.RecordProgress(cfg, applied.value.nativeProgress.value, recordedAt);
    }
    return None;
  }

  // What one poll guarantees.

  /** A poll waits no shorter than the lease and less than a millisecond longer. */
  lemma PollHonoursLease(cfg: Config, h: Health, now: Instant, arrival: Option<Arrival>)
    requires Basis(h).Some? && Basis(h).value <= now
    ensures var due := Basis(h).value + cfg.readinessStale;
      match Next(cfg, h, now, arrival)
      case Stale(at) => at >= due && at >= now && (at == now || at < due + NANOS_PER_MILLI)
      case Received(got) => Some(got) == arrival && got.at < due + NANOS_PER_MILLI
  {
    var elapsed := now - Basis(h).value;
    assert elapsed - NANOS_PER_MILLI < Age(now, Basis(h).value) <= elapsed;
  }

  /**
   A poll that begins with the reported age at the lease or past it is stale at once; any other
   waits for the rest of the lease, and receives exactly what arrives by then.
   */
  lemma PollExact(cfg: Config, h: Health, now: Instant, arrival: Option<Arrival>)
    requires Basis(h).Some?
    ensures var age := Age(now, Basis(h).value);
      if age >= cfg.readinessStale then Next(cfg, h, now, arrival) == Stale(now)
      else
        var deadline := now + (cfg.readinessStale - age);
        && (forall a :: Next(cfg, h, now, arrival) == Received(a) <==> arrival == Some(a) && a.at <= deadline)
        && (Next(cfg, h, now, arrival).Stale? ==> Next(cfg, h, now, arrival).at == deadline)
  {
  }

  /** An item that arrives within the lease is received, whenever the poll began before it. */
  lemma TimelyItemReceived(cfg: Config, h: Health, now: Instant, arrival: Arrival)
    requires Basis(h).Some? && Basis(h).value <= now <= arrival.at
    requires arrival.at < Basis(h).value + cfg.readinessStale
    ensures Next(cfg, h, now, Some(arrival)) == Received(arrival)
  {
    var elapsed := now - Basis(h).value;
    assert Age(now, Basis(h).value) <= elapsed;
  }

  // What a whole run guarantees.

  /** The raw stream never starts afresh and never records a head unconditionally. */
  predicate RawRun(ops: seq<Op>) {
    forall k :: 0 <= k < |ops| ==> !ops[k].Started? && !ops[k].Updated?
  }

  /** The published native progress at `k` exceeds the head and all earlier progress. */
  ghost predicate Advances(h: Health, ops: seq<Op>, k: nat)
    requires k < |ops|
  {
    && ops[k].Progressed?
    && ops[k].block > h.lastBlock
    && forall j :: 0 <= j < k && ops[j].Progressed? ==> ops[j].block < ops[k].block
  }

  /** Across any number of restarts the head is the largest native progress ever recorded. */
  lemma {:induction false} HeadIsMaximum(cfg: Config, h: Health, ops: seq<Op>)
    requires RawRun(ops)
    ensures var head := ApplyAll(cfg, h, ops).lastBlock;
      && head >= h.lastBlock
      && (forall k :: 0 <= k < |ops| && ops[k].Progressed? ==> ops[k].block <= head)
      && (head == h.lastBlock || exists k :: 0 <= k < |ops| && ops[k].Progressed? && ops[k].block == head)
    decreases |ops|
  {
    if ops != [] {
      var init := ops[..|ops| - 1];
      HeadIsMaximum(cfg, h, init);
      var head := ApplyAll(cfg, h, init).lastBlock;
      if head != h.lastBlock {
        var k :| 0 <= k < |init| && init[k].Progressed? && init[k].block == head;
        assert ops[k].block == head;
      }
      assert forall k :: 0 <= k < |init| ==> init[k] == ops[k];
      assert ops[|ops| - 1].Progressed? && ops[|ops| - 1].block > head ==>
        ApplyAll(cfg, h, ops).lastBlock == ops[|ops| - 1].block;
    }
  }

  /** The last operation advances the head exactly when it exceeds everything before it. */
  lemma AdvanceSeen(cfg: Config, h: Health, ops: seq<Op>)
    requires RawRun(ops) && ops != []
    ensures Advances(h, ops, |ops| - 1)
       <==> ops[|ops| - 1].Progressed? && ops[|ops| - 1].block > ApplyAll(cfg, h, ops[..|ops| - 1]).lastBlock
  {
    HeadIsMaximum(cfg, h, ops[..|ops| - 1]);
    assert forall k :: 0 <= k < |ops| - 1 ==> ops[..|ops| - 1][k] == ops[k];
  }

  /** Nothing after `from` advances the head or restarts the stream. */
  ghost predicate QuietAfter(h: Health, ops: seq<Op>, from: nat) {
    forall k :: from < k < |ops| ==> !Advances(h, ops, k) && !ops[k].StartedPreservingHead?
  }

  /**
   The lease is counted from the last strict head advance of the current stream, or else
   from its start.
   */
  lemma {:induction false} LeaseCountsFromLastAdvance(cfg: Config, h: Health, ops: seq<Op>, k: nat)
    requires RawRun(ops) && k < |ops|
    requires Advances(h, ops, k) || ops[k].StartedPreservingHead?
    requires QuietAfter(h, ops, k)
    ensures Basis(ApplyAll(cfg, h, ops)) == Some(ops[k].now)
    decreases |ops|
  {
    AdvanceSeen(cfg, h, ops);
    if k < |ops| - 1 {
      var init := ops[..|ops| - 1];
      PrefixAdvances(h, ops);
      LeaseCountsFromLastAdvance(cfg, h, init, k);
      assert !Advances(h, ops, |ops| - 1);
    }
  }

  lemma PrefixAdvances(h: Health, ops: seq<Op>)
    requires ops != []
    ensures forall k :: 0 <= k < |ops| - 1 ==> (Advances(h, ops, k) <==> Advances(h, ops[..|ops| - 1], k))
  {
    assert forall k :: 0 <= k < |ops| - 1 ==> ops[..|ops| - 1][k] == ops[k];
  }

  /**
   A flood of repeated, older or unpublished updates, however long and mixed with errors,
   moves no deadline: every later poll behaves as if it had not happened.
   */
  lemma {:induction false} FloodExtendsNothing(cfg: Config, h: Health, ops: seq<Op>, now: Instant,
                                               arrival: Option<Arrival>)
    requires RawRun(ops)
    requires forall k :: 0 <= k < |ops| ==> !Advances(h, ops, k) && !ops[k].StartedPreservingHead?
    ensures Basis(ApplyAll(cfg, h, ops)) == Basis(h)
    ensures Next(cfg, ApplyAll(cfg, h, ops), now, arrival) == Next(cfg, h, now, arrival)
    decreases |ops|
  {
    if ops != [] {
      AdvanceSeen(cfg, h, ops);
      PrefixAdvances(h, ops);
      FloodExtendsNothing(cfg, h, ops[..|ops| - 1], now, arrival);
      assert !Advances(h, ops, |ops| - 1);
    }
  }
}
