/** What a tumbling-window burst counter detects, and what it can miss. */
module BurstWindows {
  import opened Wrappers
  import opened StreamHealths

  /** The counter after same-kind events at the given times, starting from a reset counter. */
  function After(times: seq<Instant>, window: Duration): Burst
    decreases |times|
  {
    if times == [] then QUIET else Counted(After(times[..|times| - 1], window), times[|times| - 1], window)
  }

  predicate NonDecreasing(times: seq<Instant>) {
    forall i, j :: 0 <= i <= j < |times| ==> times[i] <= times[j]
  }

  /** The event at `i` finds its window expired and resets the counter. */
  predicate Resets(times: seq<Instant>, window: Duration, i: nat)
    requires i < |times|
  {
    Expired(After(times[..i], window), times[i], window)
  }

  /** The event at `i` brings the counter to the threshold. */
  predicate Trips(times: seq<Instant>, window: Duration, threshold: u64, i: nat)
    requires i < |times|
  {
    After(times[..i + 1], window).count >= threshold
  }

  lemma Step(times: seq<Instant>, window: Duration, i: nat)
    requires i < |times|
    ensures After(times[..i + 1], window) == Counted(After(times[..i], window), times[i], window)
  {
    assert times[..i + 1][..i] == times[..i];
  }

  /** The event that opened the window still running after event `i`. */
  lemma {:induction false} WindowOpener(times: seq<Instant>, window: Duration, i: nat) returns (k: nat)
    requires i < |times| && NonDecreasing(times)
    ensures k <= i
    ensures After(times[..i + 1], window).windowStart == Some(times[k])
    ensures times[i] - times[k] <= window
    ensures After(times[..i + 1], window).count == if i + 1 - k <= U64_MAX then i + 1 - k else U64_MAX
    ensures k == 0 || Resets(times, window, k)
    ensures forall j :: k < j <= i ==> !Resets(times, window, j)
  {
    Step(times, window, i);
    if i == 0 {
      assert times[..0] == [];
      k := 0;
    } else {
      var before := WindowOpener(times, window, i - 1);
      k := if Resets(times, window, i) then i else before;
    }
  }

  /** A trip means that many same-kind events within one window length. */
  lemma TripMeansCluster(times: seq<Instant>, window: Duration, threshold: u64, i: nat)
    requires NonDecreasing(times) && i < |times| && threshold >= 1
    requires Trips(times, window, threshold, i)
    ensures i + 1 >= threshold
    ensures times[i] - times[i + 1 - threshold] <= window
  {
    var k := WindowOpener(times, window, i);
    assert times[k] <= times[i + 1 - threshold];
  }

  /** At most one reset falls inside a span no longer than the window. */
  lemma OneResetInSpan(times: seq<Instant>, window: Duration, a: nat, i: nat, j: nat)
    requires NonDecreasing(times) && a <= i < j < |times|
    requires times[j] - times[a] <= window
    requires Resets(times, window, i)
    ensures !Resets(times, window, j)
  {
    var k := WindowOpener(times, window, j - 1);
    assert times[..j - 1 + 1] == times[..j];
    assert k >= i;
  }

  lemma NoOtherReset(times: seq<Instant>, window: Duration, a: nat, last: nat, j: nat)
    requires NonDecreasing(times) && a <= j <= last < |times|
    requires times[last] - times[a] <= window
    requires Resets(times, window, j)
    ensures forall m :: a <= m <= last && m != j ==> !Resets(times, window, m)
  {
    forall m | a <= m <= last && m != j ensures !Resets(times, window, m) {
      if m < j {
        if Resets(times, window, m) { OneResetInSpan(times, window, a, m, j); }
      } else {
        OneResetInSpan(times, window, a, j, m);
      }
    }
  }

  /** A reset inside such a span closes a window that an event before the span had opened. */
  lemma ResetMeansEarlierEvent(times: seq<Instant>, window: Duration, a: nat, i: nat) returns (k: nat)
    requires NonDecreasing(times) && a <= i < |times|
    requires times[i] - times[a] <= window
    requires Resets(times, window, i)
    ensures k < a && times[i] - times[k] > window
    ensures After(times[..i], window).windowStart == Some(times[k])
  {
    assert i > 0 by {
      assert times[..0] == [];
    }
    k := WindowOpener(times, window, i - 1);
    assert times[..i - 1 + 1] == times[..i];
  }

  /** The count after a stretch without resets. */
  lemma {:induction false} CountsUp(times: seq<Instant>, window: Duration, a: nat, i: nat)
    requires a <= i < |times|
    requires forall j :: a < j <= i ==> !Resets(times, window, j)
    ensures var start := After(times[..a + 1], window).count;
      After(times[..i + 1], window).count == if start + (i - a) <= U64_MAX then start + (i - a) else U64_MAX
    decreases i - a
  {
    var start: u64 := After(times[..a + 1], window).count;
    if a < i {
      CountsUp(times, window, a, i - 1);
      Step(times, window, i);
      assert times[..i - 1 + 1] == times[..i];
      assert !Resets(times, window, i);
    }
  }

  lemma CountedOnce(times: seq<Instant>, window: Duration, i: nat)
    requires i < |times|
    ensures After(times[..i + 1], window).count >= 1
    ensures Resets(times, window, i) ==> After(times[..i + 1], window).count == 1
  {
    Step(times, window, i);
  }

  /**
   Any 2N-2 consecutive same-kind events inside one window length force a trip: either
   the first N events share a window, or the single reset leaves N of them after it.
   */
  lemma ClusterForcesTrip(times: seq<Instant>, window: Duration, threshold: u64, a: nat)
    requires NonDecreasing(times) && threshold >= 2
    requires a + 2 * threshold - 2 <= |times|
    requires times[a + 2 * threshold - 3] - times[a] <= window
    ensures exists i :: a <= i < a + 2 * threshold - 2 && Trips(times, window, threshold, i)
  {
    var n: nat := threshold;
    if j :| a < j <= a + n - 1 && Resets(times, window, j) {
      NoOtherReset(times, window, a, a + 2 * n - 3, j);
      if j < a + n - 1 {
        RunTrips(times, window, threshold, j);
      } else {
        ResetAfterFull(times, window, threshold, a);
      }
    } else {
      RunTrips(times, window, threshold, a);
    }
  }

  /** N events with no reset after the first of them trip. */
  lemma RunTrips(times: seq<Instant>, window: Duration, threshold: u64, a: nat)
    requires threshold >= 1 && a + threshold - 1 < |times|
    requires forall m :: a < m <= a + threshold - 1 ==> !Resets(times, window, m)
    ensures Trips(times, window, threshold, a + threshold - 1)
  {
    CountedOnce(times, window, a);
    CountsUp(times, window, a, a + threshold - 1);
  }

  /** A reset only at the N-th event: the first event already continued an older window. */
  lemma ResetAfterFull(times: seq<Instant>, window: Duration, threshold: u64, a: nat)
    requires NonDecreasing(times) && threshold >= 2
    requires a + threshold - 1 < |times|
    requires times[a + threshold - 1] - times[a] <= window
    requires Resets(times, window, a + threshold - 1)
    requires forall m :: a <= m < a + threshold - 1 ==> !Resets(times, window, m)
    ensures Trips(times, window, threshold, a + threshold - 2)
  {
    var k := ResetMeansEarlierEvent(times, window, a, a + threshold - 1);
    CountsUp(times, window, a, a + threshold - 2);
    CountedOnce(times, window, a - 1);
    Step(times, window, a);
    assert times[..a - 1 + 1] == times[..a];
    assert !Resets(times, window, a);
    assert After(times[..a + 1], window).count >= 2;
  }

  // The bound is tight.

  /** One event, then N-2 at the end of its window, then N-1 just after it. */
  function Sparse(threshold: u64, window: Duration): (times: seq<Instant>)
    requires threshold >= 2
    ensures |times| == 2 * threshold - 2
  {
    seq(2 * threshold - 2, i => if i == 0 then 0 else if i < threshold - 1 then window else window + 1)
  }

  lemma {:induction false} SparseCount(threshold: u64, window: Duration, i: nat)
    requires threshold >= 2 && i < 2 * threshold - 2
    ensures var b := After(Sparse(threshold, window)[..i + 1], window);
      if i < threshold - 1 then b.count == i + 1 && b.windowStart == Some(0)
      else b.count == i + 2 - threshold && b.windowStart == Some(window + 1)
    decreases i
  {
    var times := Sparse(threshold, window);
    Step(times, window, i);
    if i == 0 {
      assert times[..0] == [];
    } else {
      SparseCount(threshold, window, i - 1);
      assert times[..i - 1 + 1] == times[..i];
    }
  }

  /**
   2N-3 events inside one window length need not trip: after one earlier event, a span of
   that many, one tick wide, never reaches the threshold.
   */
  lemma FewerNeedNotTrip(threshold: u64, window: Duration)
    requires threshold >= 2 && window >= 1
    ensures var times := Sparse(threshold, window);
      && NonDecreasing(times)
      && times[2 * threshold - 3] - times[1] <= window
      && forall i :: 0 <= i < |times| ==> !Trips(times, window, threshold, i)
  {
    var times := Sparse(threshold, window);
    forall i | 0 <= i < |times| ensures !Trips(times, window, threshold, i) {
      SparseCount(threshold, window, i);
    }
  }

  // The two counters inside a run of health operations: missing blocks and other errors.

  function CounterOf(h: Health, missing: bool): Burst {
    if missing then h.missing else h.errors
  }

  function WindowOf(cfg: Config, missing: bool): Duration {
    if missing then cfg.missingBlockWindow else cfg.errorWindow
  }

  function ThresholdOf(cfg: Config, missing: bool): u64 {
    if missing then cfg.missingBlockBurst else cfg.errorBurst
  }

  predicate OfKind(op: Op, missing: bool) {
    if missing then op.MissingBlock? else op.Failed?
  }

  /** The times of one kind of event since the counters were last reset. */
  function TimesOf(ops: seq<Op>, missing: bool): seq<Instant>
    decreases |ops|
  {
    if ops == [] then []
    else
      var before := TimesOf(ops[..|ops| - 1], missing);
      var op := ops[|ops| - 1];
      if OfKind(op, missing) then before + [op.now]
      else if op.BurstsReset? then []
      else before
  }

  /**
   In any run of health operations each counter is the one driven by its own kind of event
   since the last reset alone: nothing else moves it.
   */
  lemma {:induction false} CountersSeeOnlyTheirKind(cfg: Config, ops: seq<Op>, missing: bool)
    ensures var counter := CounterOf(ApplyAll(cfg, FRESH, ops), missing);
      var alone := After(TimesOf(ops, missing), WindowOf(cfg, missing));
      counter.count == alone.count && counter.windowStart == alone.windowStart
    decreases |ops|
  {
    if ops != [] {
      CountersSeeOnlyTheirKind(cfg, ops[..|ops| - 1], missing);
      var times := TimesOf(ops[..|ops| - 1], missing);
      if OfKind(ops[|ops| - 1], missing) {
        assert (times + [ops[|ops| - 1].now])[..|times|] == times;
      }
    }
  }

  /** The last operation of the run is an event that makes the stream exit. */
  ghost predicate Exits(cfg: Config, ops: seq<Op>, missing: bool) {
    && ops != []
    && OfKind(ops[|ops| - 1], missing)
    && CounterOf(ApplyAll(cfg, FRESH, ops), missing).count >= ThresholdOf(cfg, missing)
  }

  /** A stream exits on a burst only after threshold-many such events within one window length. */
  lemma ExitMeansCluster(cfg: Config, ops: seq<Op>, missing: bool)
    requires NonDecreasing(TimesOf(ops, missing)) && ThresholdOf(cfg, missing) >= 1
    requires Exits(cfg, ops, missing)
    ensures var times, n := TimesOf(ops, missing), ThresholdOf(cfg, missing);
      |times| >= n && times[|times| - 1] - times[|times| - n] <= WindowOf(cfg, missing)
  {
    var times := TimesOf(ops, missing);
    CountersSeeOnlyTheirKind(cfg, ops, missing);
    assert times[..|times| - 1 + 1] == times;
    TripMeansCluster(times, WindowOf(cfg, missing), ThresholdOf(cfg, missing), |times| - 1);
  }

  /** Each counted event ends some prefix of the run. */
  lemma {:induction false} EventEndsPrefix(ops: seq<Op>, missing: bool, i: nat) returns (k: nat)
    requires i < |TimesOf(ops, missing)|
    ensures 0 < k <= |ops| && OfKind(ops[k - 1], missing)
    ensures TimesOf(ops[..k], missing) == TimesOf(ops, missing)[..i + 1]
    decreases |ops|
  {
    var init := ops[..|ops| - 1];
    if OfKind(ops[|ops| - 1], missing) && i == |TimesOf(ops, missing)| - 1 {
      k := |ops|;
      assert ops[..k] == ops;
    } else {
      k := EventEndsPrefix(init, missing, i);
      assert init[..k] == ops[..k];
    }
  }

  lemma TripIsExit(cfg: Config, ops: seq<Op>, missing: bool, i: nat) returns (k: nat)
    requires i < |TimesOf(ops, missing)|
    requires Trips(TimesOf(ops, missing), WindowOf(cfg, missing), ThresholdOf(cfg, missing), i)
    ensures 0 < k <= |ops| && Exits(cfg, ops[..k], missing)
  {
    k := EventEndsPrefix(ops, missing, i);
    var prefix := ops[..k];
    assert prefix[|prefix| - 1] == ops[k - 1];
    CountersSeeOnlyTheirKind(cfg, prefix, missing);
  }

  /** Twice the threshold less two such events inside one window length make the stream exit. */
  lemma ClusterForcesExit(cfg: Config, ops: seq<Op>, missing: bool)
    requires NonDecreasing(TimesOf(ops, missing)) && ThresholdOf(cfg, missing) >= 2
    requires |TimesOf(ops, missing)| >= 2 * ThresholdOf(cfg, missing) - 2
    requires var times, n := TimesOf(ops, missing), ThresholdOf(cfg, missing);
      times[|times| - 1] - times[|times| - (2 * n - 2)] <= WindowOf(cfg, missing)
    ensures exists k :: 0 < k <= |ops| && Exits(cfg, ops[..k], missing)
  {
    var times := TimesOf(ops, missing);
    var n: nat := ThresholdOf(cfg, missing);
    ClusterForcesTrip(times, WindowOf(cfg, missing), n, |times| - (2 * n - 2));
    var i :| 0 <= i < |times| && Trips(times, WindowOf(cfg, missing), n, i);
    var k := TripIsExit(cfg, ops, missing, i);
  }

  // Totals.

  datatype Tally = MissingBlocks | Errors | Sightings | Restarts

  predicate Counts(op: Op, t: Tally) {
    match t
    case MissingBlocks => op.MissingBlock?
    case Errors => op.Failed?
    case Sightings => op.AdvancedSeen?
    case Restarts => op.Restarted?
  }

  function TotalOf(h: Health, t: Tally): u64 {
    match t
    case MissingBlocks => h.missing.total
    case Errors => h.errors.total
    case Sightings => h.advanced.total
    case Restarts => h.restarts
  }

  function CountOf(ops: seq<Op>, t: Tally): (n: nat)
    ensures n <= |ops|
    decreases |ops|
  {
    if ops == [] then 0 else CountOf(ops[..|ops| - 1], t) + if Counts(ops[|ops| - 1], t) then 1 else 0
  }

  /** Nothing resets a total: it counts every event of its kind since the beginning, up to the 64-bit maximum. */
  lemma {:induction false} TotalsCountAll(cfg: Config, ops: seq<Op>, t: Tally)
    ensures TotalOf(ApplyAll(cfg, FRESH, ops), t) == if CountOf(ops, t) <= U64_MAX then CountOf(ops, t) else U64_MAX
    decreases |ops|
  {
    if ops != [] {
      TotalsCountAll(cfg, ops[..|ops| - 1], t);
    }
  }
}
