/**
 The health record of one upstream stream: burst counters over tumbling windows, the
 progress clock and the head it is measured against. Clock readings are parameters.
 */
module StreamHealths {
  import opened Wrappers

  /** A monotonic clock reading and a duration, in nanoseconds. */
  type Instant = nat
  type Duration = nat

  /** `saturating_duration_since`. */
  function Since(now: Instant, start: Instant): Duration {
    SaturatingSub(now, start)
  }

  datatype Burst = Burst(count: u64, total: u64, windowStart: Option<Instant>)

  const QUIET := Burst(0, 0, None)

  /** A window lasts while no more than its length has passed since it began. */
  predicate Expired(b: Burst, now: Instant, window: Duration) {
    b.windowStart.Some? && Since(now, b.windowStart.value) > window
  }

  /** One event counted, opening a new window when the old one has expired. */
  function Counted(b: Burst, now: Instant, window: Duration): Burst {
    var kept := if Expired(b, now, window) then Burst(0, b.total, None) else b;
    Burst(SaturatingSucc(kept.count), SaturatingSucc(b.total),
          if kept.windowStart.None? then Some(now) else kept.windowStart)
  }

  /** An Advanced sighting: its window stays open until it is cleared. */
  function Sighted(b: Burst, now: Instant): Burst {
    if b.windowStart.None? then Burst(1, SaturatingSucc(b.total), Some(now))
    else Burst(SaturatingSucc(b.count), SaturatingSucc(b.total), b.windowStart)
  }

  function Cleared(b: Burst): Burst {
    Burst(0, b.total, None)
  }

  datatype Health = Health(
    startedAt: Option<Instant>,
    lastUpdateAt: Option<Instant>,
    lastBlock: u64,
    missing: Burst,
    errors: Burst,
    advanced: Burst,
    restarts: u64)

  const FRESH := Health(None, None, 0, QUIET, QUIET, QUIET, 0)

  datatype Config = Config(
    readinessStale: Duration,
    missingBlockBurst: u64,
    missingBlockWindow: Duration,
    errorBurst: u64,
    errorWindow: Duration,
    resyncGrace: Duration)

  /** The operations other components perform on a stream's health. */
  datatype Op =
    | Started(now: Instant)
    | StartedPreservingHead(now: Instant)
    | Updated(block: u64, now: Instant)
    | Progressed(block: u64, now: Instant)
    | MissingBlock(now: Instant)
    | Failed(now: Instant)
    | AdvancedSeen(now: Instant)
    | AdvancedCleared
    | BurstsReset
    | Restarted

  function Apply(cfg: Config, h: Health, op: Op): Health {
    match op
    case Started(now) => h.(startedAt := Some(now), lastUpdateAt := None, lastBlock := 0)
    case StartedPreservingHead(now) => h.(startedAt := Some(now), lastUpdateAt := None)
    case Updated(block, now) => h.(lastUpdateAt := Some(now), lastBlock := block)
    case Progressed(block, now) =>
      if block > h.lastBlock then h.(lastUpdateAt := Some(now), lastBlock := block) else h
    case MissingBlock(now) => h.(missing := Counted(h.missing, now, cfg.missingBlockWindow))
    case Failed(now) => h.(errors := Counted(h.errors, now, cfg.errorWindow))
    case AdvancedSeen(now) => h.(advanced := Sighted(h.advanced, now))
    case AdvancedCleared => h.(advanced := Cleared(h.advanced))
    case BurstsReset =>
      h.(missing := Cleared(h.missing), errors := Cleared(h.errors), advanced := Cleared(h.advanced))
    case Restarted => h.(restarts := SaturatingSucc(h.restarts))
  }

  /** The health after a run of operations. */
  function ApplyAll(cfg: Config, h: Health, ops: seq<Op>): Health
    decreases |ops|
  {
    if ops == [] then h else Apply(cfg, ApplyAll(cfg, h, ops[..|ops| - 1]), ops[|ops| - 1])
  }

  datatype BurstUpdate = BurstUpdate(burstCount: u64, totalCount: u64, windowStarted: bool)

  class StreamHealth {
    var startedAt: Option<Instant>
    var lastUpdateAt: Option<Instant>
    var lastBlock: u64
    var missingBlockBurst: u64
    var missingBlockTotal: u64
    var missingBlockWindowStart: Option<Instant>
    var errorBurst: u64
    var errorTotal: u64
    var errorWindowStart: Option<Instant>
    var advancedBurst: u64
    var advancedTotal: u64
    var advancedWindowStart: Option<Instant>
    var restartCount: u64

    function Value(): Health
      reads this
    {
      Health(startedAt, lastUpdateAt, lastBlock,
             Burst(missingBlockBurst, missingBlockTotal, missingBlockWindowStart),
             Burst(errorBurst, errorTotal, errorWindowStart),
             Burst(advancedBurst, advancedTotal, advancedWindowStart),
             restartCount)
    }

    constructor ()
      ensures Value() == FRESH
    {
      startedAt, lastUpdateAt, lastBlock := None, None, 0;
      missingBlockBurst, missingBlockTotal, missingBlockWindowStart := 0, 0, None;
      errorBurst, errorTotal, errorWindowStart := 0, 0, None;
      advancedBurst, advancedTotal, advancedWindowStart := 0, 0, None;
      restartCount := 0;
    }

    method MarkStarted(cfg: Config, now: Instant)
      modifies this
      ensures Value() == Apply(cfg, old(Value()), Started(now))
      ensures Value() == old(Value()).(startedAt := Some(now), lastUpdateAt := None, lastBlock := 0)
    {
      startedAt := Some(now);
      lastUpdateAt := None;
      lastBlock := 0;
    }

    method MarkStartedPreservingHead(cfg: Config, now: Instant)
      modifies this
      ensures Value() == Apply(cfg, old(Value()), StartedPreservingHead(now))
      ensures Value() == old(Value()).(startedAt := Some(now), lastUpdateAt := None)
    {
      startedAt := Some(now);
      lastUpdateAt := None;
    }

    method RecordUpdate(cfg: Config, block: u64, now: Instant)
      modifies this
      ensures Value() == Apply(cfg, old(Value()), Updated(block, now))
      ensures Value() == old(Value()).(lastUpdateAt := Some(now), lastBlock := block)
    {
      lastUpdateAt := Some(now);
      lastBlock := block;
    }

    method RecordProgress(cfg: Config, block: u64, now: Instant)
      modifies this
      ensures Value() == Apply(cfg, old(Value()), Progressed(block, now))
      ensures block > old(Value()).lastBlock ==>
        Value() == old(Value()).(lastUpdateAt := Some(now), lastBlock := block)
      ensures block <= old(Value()).lastBlock ==> Value() == old(Value())
    {
      if block > lastBlock {
        lastUpdateAt := Some(now);
        lastBlock := block;
      }
    }

    method RecordMissingBlock(cfg: Config, now: Instant) returns (r: BurstUpdate)
      modifies this
      ensures Value() == Apply(cfg, old(Value()), MissingBlock(now))
      ensures r.burstCount == Value().missing.count && r.totalCount == Value().missing.total
      ensures r.windowStarted <==>
        old(Value()).missing.windowStart.None? || Expired(old(Value()).missing, now, cfg.missingBlockWindow)
    {
      missingBlockTotal := SaturatingSucc(missingBlockTotal);
      if missingBlockWindowStart.Some? && Since(now, missingBlockWindowStart.value) > cfg.missingBlockWindow {
        missingBlockBurst := 0;
        missingBlockWindowStart := None;
      }
      var started := missingBlockWindowStart.None?;
      if started {
        missingBlockWindowStart := Some(now);
      }
      missingBlockBurst := SaturatingSucc(missingBlockBurst);
      r := BurstUpdate(missingBlockBurst, missingBlockTotal, started);
    }

    method RecordError(cfg: Config, now: Instant) returns (r: BurstUpdate)
      modifies this
      ensures Value() == Apply(cfg, old(Value()), Failed(now))
      ensures r.burstCount == Value().errors.count && r.totalCount == Value().errors.total
      ensures r.windowStarted <==>
        old(Value()).errors.windowStart.None? || Expired(old(Value()).errors, now, cfg.errorWindow)
    {
      errorTotal := SaturatingSucc(errorTotal);
      if errorWindowStart.Some? && Since(now, errorWindowStart.value) > cfg.errorWindow {
        errorBurst := 0;
        errorWindowStart := None;
      }
      var started := errorWindowStart.None?;
      if started {
        errorWindowStart := Some(now);
      }
      errorBurst := SaturatingSucc(errorBurst);
      r := BurstUpdate(errorBurst, errorTotal, started);
    }

    method RecordAdvanced(cfg: Config, now: Instant) returns (r: BurstUpdate, elapsed: Duration)
      modifies this
      ensures Value() == Apply(cfg, old(Value()), AdvancedSeen(now))
      ensures r.burstCount == Value().advanced.count && r.totalCount == Value().advanced.total
      ensures r.windowStarted <==> old(Value()).advanced.windowStart.None?
      ensures Value().advanced.windowStart.Some? && elapsed == Since(now, Value().advanced.windowStart.value)
    {
      advancedTotal := SaturatingSucc(advancedTotal);
      var started := advancedWindowStart.None?;
      if started {
        advancedWindowStart := Some(now);
        advancedBurst := 0;
      }
      advancedBurst := SaturatingSucc(advancedBurst);
      elapsed := Since(now, advancedWindowStart.value);
      r := BurstUpdate(advancedBurst, advancedTotal, started);
    }

    method ClearAdvanced(cfg: Config)
      modifies this
      ensures Value() == Apply(cfg, old(Value()), AdvancedCleared)
      ensures Value() == old(Value()).(advanced := Burst(0, old(Value()).advanced.total, None))
    {
      advancedBurst := 0;
      advancedWindowStart := None;
    }

    method ResetBursts(cfg: Config)
      modifies this
      ensures Value() == Apply(cfg, old(Value()), BurstsReset)
      ensures var was := old(Value());
        Value() == was.(missing := Burst(0, was.missing.total, None), errors := Burst(0, was.errors.total, None),
                        advanced := Burst(0, was.advanced.total, None))
    {
      missingBlockBurst, missingBlockWindowStart := 0, None;
      errorBurst, errorWindowStart := 0, None;
      advancedBurst, advancedWindowStart := 0, None;
    }

    method IncrementRestart(cfg: Config) returns (count: u64)
      modifies this
      ensures Value() == Apply(cfg, old(Value()), Restarted)
      ensures count == Value().restarts
      ensures Value() == old(Value()).(restarts := count)
      ensures count == if old(Value()).restarts < U64_MAX then old(Value()).restarts + 1 else U64_MAX
    {
      restartCount := SaturatingSucc(restartCount);
      count := restartCount;
    }
  }

  datatype RestartReason = MissingBlocks | StreamErrors

  /** `handle_stream_error`: a missing-block error counts apart from every other error. */
  method HandleStreamError(cfg: Config, health: StreamHealth, missingBlock: bool, now: Instant)
    returns (exit: Option<RestartReason>)
    modifies health
    ensures health.Value() == Apply(cfg, old(health.Value()), if missingBlock then MissingBlock(now) else Failed(now))
    ensures exit ==
      if missingBlock && health.Value().missing.count >= cfg.missingBlockBurst then Some(MissingBlocks)
      else if !missingBlock && health.Value().errors.count >= cfg.errorBurst then Some(StreamErrors)
      else None
  {
    if missingBlock {
      var burst := health.RecordMissingBlock(cfg, now);
      return if burst.burstCount >= cfg.missingBlockBurst then Some(MissingBlocks) else None;
    } else {
      var burst := health.RecordError(cfg, now);
      return if burst.burstCount >= cfg.errorBurst then Some(StreamErrors) else None;
    }
  }
}
