/**
 The lock-free snapshot throttle: threads race on one atomic timestamp by load and
 compare-exchange, and forced snapshots store unconditionally. A relaxed load may return any
 value the atomic ever held; a compare-exchange that succeeds saw the latest one.
 */
module Throttle {
  import opened Wrappers

  type ThreadId = nat

  /** Where a thread stands inside `should_log_snapshot`. */
  datatype Phase =
    | Loading
    | Exchanging(seen: u64)
    | Refused(seen: u64)
    | Won

  datatype Thread = Thread(now: u64, phase: Phase)

  /** One store to the atomic, with the value it replaced. */
  datatype Write = Write(now: u64, replaced: u64, forced: bool)

  datatype State = State(writes: seq<Write>, threads: map<ThreadId, Thread>)

  const INITIAL := State([], map[])

  function ValueAfter(writes: seq<Write>): u64 {
    if writes == [] then 0 else writes[|writes| - 1].now
  }

  datatype Step =
    | Begin(id: ThreadId, now: u64)
    | Load(id: ThreadId, age: nat)
    | Exchange(id: ThreadId, lost: bool)
    | ForcedStore(now: u64)

  /** A load may return the latest value or any older one. */
  function LoadedValue(writes: seq<Write>, age: nat): u64 {
    if age <= |writes| then ValueAfter(writes[..|writes| - age]) else 0
  }

  function Apply(interval: u64, s: State, step: Step): State {
    match step
    case Begin(id, now) => s.(threads := s.threads[id := Thread(now, Loading)])
    case Load(id, age) =>
      if id in s.threads && s.threads[id].phase.Loading? then
        var t := s.threads[id];
        var last := LoadedValue(s.writes, age);
        var phase := if SaturatingSub(t.now, last) < interval then Refused(last) else Exchanging(last);
        s.(threads := s.threads[id := t.(phase := phase)])
      else s
    case Exchange(id, lost) =>
      if id in s.threads && s.threads[id].phase.Exchanging? then
        var t := s.threads[id];
        if ValueAfter(s.writes) != t.phase.seen || lost then s.(threads := s.threads[id := t.(phase := Loading)])
        else State(s.writes + [Write(t.now, t.phase.seen, false)], s.threads[id := t.(phase := Won)])
      else s
    case ForcedStore(now) => s.(writes := s.writes + [Write(now, ValueAfter(s.writes), true)])
  }

  /** Any interleaving of the threads' steps. */
  function Run(interval: u64, steps: seq<Step>): State
    decreases |steps|
  {
    if steps == [] then INITIAL else Apply(interval, Run(interval, steps[..|steps| - 1]), steps[|steps| - 1])
  }

  ghost predicate Inv(interval: u64, s: State) {
    && (forall i :: 0 <= i < |s.writes| ==> s.writes[i].replaced == ValueAfter(s.writes[..i]))
    && (forall i :: 0 <= i < |s.writes| && !s.writes[i].forced ==> s.writes[i].now - s.writes[i].replaced >= interval)
    && (forall id :: id in s.threads && s.threads[id].phase.Exchanging? ==>
          SaturatingSub(s.threads[id].now, s.threads[id].phase.seen) >= interval)
    && (forall id :: id in s.threads && s.threads[id].phase.Refused? ==>
          Held(s, s.threads[id].phase.seen) && s.threads[id].now < s.threads[id].phase.seen + interval)
  }

  /** The atomic once held the value. */
  ghost predicate Held(s: State, value: u64) {
    exists i :: 0 <= i <= |s.writes| && value == ValueAfter(s.writes[..i])
  }

  lemma WriteKeepsHeld(s: State, write: Write, value: u64)
    requires Held(s, value)
    ensures Held(s.(writes := s.writes + [write]), value)
  {
    var i :| 0 <= i <= |s.writes| && value == ValueAfter(s.writes[..i]);
    assert (s.writes + [write])[..i] == s.writes[..i];
  }

  lemma WriteKeepsInv(interval: u64, s: State, write: Write)
    requires Inv(interval, s)
    requires write.replaced == ValueAfter(s.writes)
    requires !write.forced ==> write.now - write.replaced >= interval
    ensures Inv(interval, s.(writes := s.writes + [write]))
  {
    var t := s.(writes := s.writes + [write]);
    forall i | 0 <= i < |t.writes| ensures t.writes[i].replaced == ValueAfter(t.writes[..i]) {
      assert t.writes[..i] == s.writes[..i];
      assert s.writes[..|s.writes|] == s.writes;
    }
    forall id | id in t.threads && t.threads[id].phase.Refused? ensures Held(t, t.threads[id].phase.seen) {
      WriteKeepsHeld(s, write, t.threads[id].phase.seen);
    }
  }

  lemma LoadKeepsInv(interval: u64, s: State, id: ThreadId, age: nat)
    requires interval > 0 && Inv(interval, s)
    ensures Inv(interval, Apply(interval, s, Load(id, age)))
  {
    if id in s.threads && s.threads[id].phase.Loading? {
      var last := LoadedValue(s.writes, age);
      assert Held(s, last) by {
        assert ValueAfter(s.writes[..0]) == 0;
        assert age <= |s.writes| ==> last == ValueAfter(s.writes[..|s.writes| - age]);
      }
    }
  }

  lemma ExchangeKeepsInv(interval: u64, s: State, id: ThreadId, lost: bool)
    requires interval > 0 && Inv(interval, s)
    ensures Inv(interval, Apply(interval, s, Exchange(id, lost)))
  {
    if id in s.threads && s.threads[id].phase.Exchanging? {
      var t := s.threads[id];
      if ValueAfter(s.writes) == t.phase.seen && !lost {
        WriteKeepsInv(interval, s, Write(t.now, t.phase.seen, false));
      }
    }
  }

  lemma StepKeepsInv(interval: u64, s: State, step: Step)
    requires interval > 0 && Inv(interval, s)
    ensures Inv(interval, Apply(interval, s, step))
  {
    match step
    case Begin(_, _) =>
    case Load(id, age) => LoadKeepsInv(interval, s, id, age);
    case Exchange(id, lost) => ExchangeKeepsInv(interval, s, id, lost);
    case ForcedStore(now) =>
      WriteKeepsInv(interval, s, Write(now, ValueAfter(s.writes), true));
  }

  lemma {:induction false} RunKeepsInv(interval: u64, steps: seq<Step>)
    requires interval > 0
    ensures Inv(interval, Run(interval, steps))
    decreases |steps|
  {
    if steps != [] {
      RunKeepsInv(interval, steps[..|steps| - 1]);
      StepKeepsInv(interval, Run(interval, steps[..|steps| - 1]), steps[|steps| - 1]);
    }
  }

  /** Each winning timestamp lies at least the interval above the value it really replaced. */
  lemma WinnersClearTheInterval(interval: u64, steps: seq<Step>, i: nat)
    requires interval > 0 && i < |Run(interval, steps).writes|
    ensures var writes := Run(interval, steps).writes;
      && writes[i].replaced == (if i == 0 then 0 else writes[i - 1].now)
      && (!writes[i].forced ==> writes[i].now >= writes[i].replaced + interval)
  {
    RunKeepsInv(interval, steps);
  }

  /** A refused thread came less than the interval after a value the atomic held. */
  lemma RefusalsAreEarned(interval: u64, steps: seq<Step>, id: ThreadId)
    requires interval > 0
    requires id in Run(interval, steps).threads && Run(interval, steps).threads[id].phase.Refused?
    ensures var s := Run(interval, steps);
      exists i :: 0 <= i <= |s.writes| && s.threads[id].now < ValueAfter(s.writes[..i]) + interval
  {
    RunKeepsInv(interval, steps);
    var s := Run(interval, steps);
    var i :| 0 <= i <= |s.writes| && s.threads[id].phase.seen == ValueAfter(s.writes[..i]);
  }

  lemma {:induction false} UnforcedStoresClimb(interval: u64, s: State, i: nat, j: nat)
    requires Inv(interval, s) && i < j < |s.writes|
    requires forall k :: i < k <= j ==> !s.writes[k].forced
    ensures s.writes[j].now >= s.writes[i].now + interval
    decreases j - i
  {
    assert s.writes[..j][j - 1] == s.writes[j - 1];
    if i + 1 < j {
      UnforcedStoresClimb(interval, s, i, j - 1);
    }
  }

  /** Without a forced store in between, any two winners are at least one interval apart. */
  lemma WinnersApart(interval: u64, steps: seq<Step>, i: nat, j: nat)
    requires interval > 0 && i < j < |Run(interval, steps).writes|
    requires forall k :: i < k <= j ==> !Run(interval, steps).writes[k].forced
    ensures Run(interval, steps).writes[j].now >= Run(interval, steps).writes[i].now + interval
  {
    RunKeepsInv(interval, steps);
    UnforcedStoresClimb(interval, Run(interval, steps), i, j);
  }

  /** Under relaxed memory a load may see any value the atomic ever held. */
  lemma AnyHeldValueLoads(writes: seq<Write>, i: nat)
    requires i <= |writes|
    ensures exists age: nat :: LoadedValue(writes, age) == ValueAfter(writes[..i])
  {
    assert LoadedValue(writes, |writes| - i) == ValueAfter(writes[..i]);
  }

  // Who has won.

  /** The exchange of the thread at step `k` is the one that wrote. */
  ghost predicate Wrote(interval: u64, steps: seq<Step>, id: ThreadId, k: nat)
    requires k < |steps|
  {
    && steps[k].Exchange? && steps[k].id == id
    && |Run(interval, steps[..k + 1]).writes| == |Run(interval, steps[..k]).writes| + 1
  }

  ghost predicate BegunSince(steps: seq<Step>, id: ThreadId, k: nat) {
    exists j :: k < j < |steps| && steps[j].Begin? && steps[j].id == id
  }

  /** The step writes on behalf of the thread. */
  ghost predicate WinsNow(s: State, step: Step, id: ThreadId) {
    && step.Exchange? && step.id == id && !step.lost
    && id in s.threads && s.threads[id].phase.Exchanging?
    && ValueAfter(s.writes) == s.threads[id].phase.seen
  }

  predicate HasWon(s: State, id: ThreadId) {
    id in s.threads && s.threads[id].phase.Won?
  }

  /** One step makes a thread a winner exactly when its own exchange writes the thread's time. */
  lemma StepWins(interval: u64, s: State, step: Step, id: ThreadId)
    ensures var after := Apply(interval, s, step);
      && (HasWon(after, id) <==> WinsNow(s, step, id) || (HasWon(s, id) && !(step.Begin? && step.id == id)))
      && (WinsNow(s, step, id) ==>
            after.writes == s.writes + [Write(s.threads[id].now, s.threads[id].phase.seen, false)])
      && (step.Exchange? && step.id == id ==> (WinsNow(s, step, id) <==> |after.writes| == |s.writes| + 1))
  {
  }

  /** Over every interleaving a thread has won exactly when its own exchange wrote and it has not begun anew. */
  lemma {:induction false} WonMeansWrote(interval: u64, steps: seq<Step>, id: ThreadId)
    ensures HasWon(Run(interval, steps), id) <==>
      exists k: nat :: k < |steps| && Wrote(interval, steps, id, k) && !BegunSince(steps, id, k)
    decreases |steps|
  {
    if steps != [] {
      var n := |steps| - 1;
      var init := steps[..n];
      WonMeansWrote(interval, init, id);
      StepWins(interval, Run(interval, init), steps[n], id);
      assert steps[..n + 1] == steps;
      WroteBefore(interval, steps, id);
      WonFromInit(interval, steps, id);
    }
  }

  lemma WroteBefore(interval: u64, steps: seq<Step>, id: ThreadId)
    requires steps != []
    ensures var n := |steps| - 1;
      forall k: nat :: k < n ==>
        && (Wrote(interval, steps, id, k) <==> Wrote(interval, steps[..n], id, k))
        && (BegunSince(steps, id, k) <==> BegunSince(steps[..n], id, k) || (steps[n].Begin? && steps[n].id == id))
  {
    var n := |steps| - 1;
    var init := steps[..n];
    forall k: nat | k < n
      ensures Wrote(interval, steps, id, k) <==> Wrote(interval, init, id, k)
      ensures BegunSince(steps, id, k) <==> BegunSince(init, id, k) || (steps[n].Begin? && steps[n].id == id)
    {
      assert init[..k + 1] == steps[..k + 1] && init[..k] == steps[..k];
      if j :| k < j < n && init[j].Begin? && init[j].id == id {
        assert steps[j] == init[j];
      }
      if j :| k < j < |steps| && steps[j].Begin? && steps[j].id == id {
        assert j < n ==> init[j] == steps[j];
      }
    }
  }

  lemma WonFromInit(interval: u64, steps: seq<Step>, id: ThreadId)
    requires steps != []
    ensures Wrote(interval, steps, id, |steps| - 1) <==> WinsNow(Run(interval, steps[..|steps| - 1]), steps[|steps| - 1], id)
    ensures !BegunSince(steps, id, |steps| - 1)
  {
    assert steps[..|steps|] == steps;
    StepWins(interval, Run(interval, steps[..|steps| - 1]), steps[|steps| - 1], id);
  }
}
