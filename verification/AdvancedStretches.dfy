/** The Advanced burst over a run: an unbroken stretch of sightings and its one window. */
module AdvancedStretches {
  import opened Wrappers
  import opened StreamHealths
  import opened RawLease

  /** What closes the window. */
  predicate Breaks(op: Op) {
    op.AdvancedCleared? || op.BurstsReset?
  }

  /** A break lies between the two operations. */
  ghost predicate BrokenBetween(ops: seq<Op>, lo: nat, hi: nat)
    requires hi <= |ops|
  {
    exists i :: lo < i < hi && Breaks(ops[i])
  }

  /** The sighting at `k` is the first since the last break. */
  ghost predicate FirstSighting(ops: seq<Op>, k: nat) {
    && k < |ops| && ops[k].AdvancedSeen?
    && (forall i :: k < i < |ops| ==> !Breaks(ops[i]))
    && (forall j: nat :: j < k && ops[j].AdvancedSeen? ==> BrokenBetween(ops, j, k))
  }

  /** Every sighting has been broken off. */
  ghost predicate NoneSince(ops: seq<Op>) {
    forall j: nat :: j < |ops| && ops[j].AdvancedSeen? ==> BrokenBetween(ops, j, |ops|)
  }

  function FirstSince(ops: seq<Op>): (k: Option<nat>)
    decreases |ops|
  {
    if ops == [] then None
    else
      var last, before := ops[|ops| - 1], FirstSince(ops[..|ops| - 1]);
      if Breaks(last) then None
      else if before.Some? || !last.AdvancedSeen? then before
      else Some(|ops| - 1)
  }

  lemma {:induction false} FirstSinceIsFirst(ops: seq<Op>)
    ensures match FirstSince(ops)
            case Some(k) => FirstSighting(ops, k)
            case None => NoneSince(ops)
    decreases |ops|
  {
    if ops != [] {
      var n := |ops| - 1;
      FirstSinceIsFirst(ops[..n]);
      if Breaks(ops[n]) {
        forall j: nat | j < |ops| && ops[j].AdvancedSeen? ensures BrokenBetween(ops, j, |ops|) {
          assert j < n && Breaks(ops[n]);
        }
      } else {
        forall j: nat, hi: nat | hi <= n && BrokenBetween(ops[..n], j, hi) ensures BrokenBetween(ops, j, hi) {
          var i :| j < i < hi && Breaks(ops[..n][i]);
          assert Breaks(ops[i]);
        }
      }
    }
  }

  /** At most one sighting is the first since the last break. */
  lemma FirstIsOne(ops: seq<Op>, k: nat)
    requires FirstSighting(ops, k)
    ensures FirstSince(ops) == Some(k)
  {
    FirstSinceIsFirst(ops);
    assert !BrokenBetween(ops, k, |ops|);
    var f := FirstSince(ops).value;
    assert f < k ==> !BrokenBetween(ops, f, k);
    assert k < f ==> !BrokenBetween(ops, k, f);
  }

  /** The sightings since the last break. */
  function SeenSince(ops: seq<Op>): nat
    decreases |ops|
  {
    if ops == [] || Breaks(ops[|ops| - 1]) then 0
    else SeenSince(ops[..|ops| - 1]) + if ops[|ops| - 1].AdvancedSeen? then 1 else 0
  }

  function Capped(n: nat): u64 {
    if n <= U64_MAX then n else U64_MAX
  }

  lemma {:induction false} WindowOpens(cfg: Config, ops: seq<Op>)
    ensures var b := ApplyAll(cfg, FRESH, ops).advanced;
      match FirstSince(ops)
      case Some(k) => k < |ops| && ops[k].AdvancedSeen? && b.windowStart == Some(ops[k].now) && SeenSince(ops) > 0
      case None => b.windowStart == None && SeenSince(ops) == 0
    ensures ApplyAll(cfg, FRESH, ops).advanced.count == Capped(SeenSince(ops))
    decreases |ops|
  {
    if ops != [] {
      WindowOpens(cfg, ops[..|ops| - 1]);
    }
  }

  /**
   Over any run of health operations the Advanced window is open exactly while a sighting has
   not been cleared or reset; it began at the first such sighting, and its count is the number
   of them.
   */
  lemma WindowIsStretch(cfg: Config, ops: seq<Op>)
    ensures var b := ApplyAll(cfg, FRESH, ops).advanced;
      && (b.windowStart.None? <==> NoneSince(ops))
      && (forall k: nat :: FirstSighting(ops, k) ==> b.windowStart == Some(ops[k].now))
      && b.count == Capped(SeenSince(ops))
  {
    WindowOpens(cfg, ops);
    FirstSinceIsFirst(ops);
    forall k: nat | FirstSighting(ops, k) ensures ApplyAll(cfg, FRESH, ops).advanced.windowStart == Some(ops[k].now) {
      FirstIsOne(ops, k);
    }
    if FirstSince(ops).Some? {
      assert !BrokenBetween(ops, FirstSince(ops).value, |ops|);
    }
  }

  // The grace exit.

  datatype RawUpdate = RawUpdate(now: Instant, recordedAt: Instant, hasAdvanced: bool, applied: Option<Applied>)

  /** The health after a run of raw updates. */
  function HealthAfter(cfg: Config, h: Health, updates: seq<RawUpdate>): Health
    decreases |updates|
  {
    if updates == [] then h
    else
      var u, before := updates[|updates| - 1], HealthAfter(cfg, h, updates[..|updates| - 1]);
      ApplyAll(cfg, before, RawUpdateOps(cfg, before, u.now, u.recordedAt, u.hasAdvanced, u.applied))
  }

  /** From `k` to the end every update carries an Advanced state, and the one before `k` does not. */
  predicate Stretch(updates: seq<RawUpdate>, k: nat) {
    && k < |updates|
    && (forall i :: k <= i < |updates| ==> updates[i].hasAdvanced)
    && (k > 0 ==> !updates[k - 1].hasAdvanced)
  }

  /** One raw update's effect on the window. */
  lemma UpdateWindow(cfg: Config, h: Health, u: RawUpdate)
    ensures var after := ApplyAll(cfg, h, RawUpdateOps(cfg, h, u.now, u.recordedAt, u.hasAdvanced, u.applied));
      after.advanced.windowStart ==
      if !u.hasAdvanced then None else if h.advanced.windowStart.None? then Some(u.now) else h.advanced.windowStart
  {
    var sighting := if u.hasAdvanced then AdvancedSeen(u.now) else AdvancedCleared;
    OneOp(cfg, h, sighting);
    var ops := RawUpdateOps(cfg, h, u.now, u.recordedAt, u.hasAdvanced, u.applied);
    if |ops| == 2 {
      TwoOps(cfg, h, sighting, ops[1]);
    }
  }

  lemma {:induction false} WindowOfUpdates(cfg: Config, h: Health, updates: seq<RawUpdate>, k: nat)
    requires h.advanced.windowStart.None? && Stretch(updates, k)
    ensures HealthAfter(cfg, h, updates).advanced.windowStart == Some(updates[k].now)
    decreases |updates|
  {
    var n := |updates| - 1;
    var init := updates[..n];
    UpdateWindow(cfg, HealthAfter(cfg, h, init), updates[n]);
    if k < n {
      assert Stretch(init, k);
      WindowOfUpdates(cfg, h, init, k);
    } else {
      ClosedAfterPlain(cfg, h, init);
    }
  }

  /** With no update yet, or after one without an Advanced state, the window is closed. */
  lemma ClosedAfterPlain(cfg: Config, h: Health, updates: seq<RawUpdate>)
    requires h.advanced.windowStart.None?
    requires updates != [] ==> !updates[|updates| - 1].hasAdvanced
    ensures HealthAfter(cfg, h, updates).advanced.windowStart == None
  {
    if updates != [] {
      UpdateWindow(cfg, HealthAfter(cfg, h, updates[..|updates| - 1]), updates[|updates| - 1]);
    }
  }

  /**
   Over any run of raw updates, the last one exits as Advanced for too long exactly when it
   carries an Advanced state and the unbroken stretch of such updates began at least the grace
   period before it.
   */
  lemma GraceExitExact(cfg: Config, h: Health, updates: seq<RawUpdate>)
    requires h.advanced.windowStart.None? && updates != []
    ensures var last := updates[|updates| - 1];
      (last.hasAdvanced && GraceExceeded(cfg, HealthAfter(cfg, h, updates), last.now))
      <==> exists k: nat :: Stretch(updates, k) && Since(last.now, updates[k].now) >= cfg.resyncGrace
  {
    forall k: nat | Stretch(updates, k)
      ensures HealthAfter(cfg, h, updates).advanced.windowStart == Some(updates[k].now)
    {
      WindowOfUpdates(cfg, h, updates, k);
    }
    if updates[|updates| - 1].hasAdvanced {
      var k := StretchOf(updates);
    }
  }

  lemma {:induction false} StretchOf(updates: seq<RawUpdate>) returns (k: nat)
    requires updates != [] && updates[|updates| - 1].hasAdvanced
    ensures Stretch(updates, k)
    decreases |updates|
  {
    var n := |updates| - 1;
    if n == 0 || !updates[n - 1].hasAdvanced {
      k := n;
    } else {
      k := StretchOf(updates[..n]);
      assert forall i :: k <= i < n ==> updates[..n][i] == updates[i];
    }
  }
}
