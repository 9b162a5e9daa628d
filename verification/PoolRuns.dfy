/**
 Every pool over a whole run, told from the messages alone: which updates, removals, snapshots
 and catch-ups decide it, at which block and version it is served, and whether it is served.
 */
module PoolRuns {
  import opened Wrappers
  import opened Wire
  import opened Contracts
  import opened Trackers
  import opened Replay
  import opened StateStores
  import opened Subscription
  import opened Batches
  import opened RecoveryInvariant
  import opened RecoveryCommit
  import opened RecoveryRuns
  import opened Fragments
  import opened Pools
  import opened Views

  // The meaning of a run for one backend and one pool id.

  /** The replacement text: the fragments of the chunks, in the order they came. */
  function TextOf(ms: seq<ReplayMessage>): string {
    if ms == [] then ""
    else
      var payload := ms[|ms| - 1].envelope.payload;
      TextOf(ms[..|ms| - 1]) + if payload.Chunk? then payload.chunk.payloadFragment else ""
  }

  /** What a commit after `ms` installs: the text and the catch-ups since the last Start. */
  function CommittedView(codec: Codec, b: Backend, id: string, ms: seq<ReplayMessage>): PoolView {
    var since := ms[LastStart(ms)..];
    match codec.replacement(TextOf(since))
    case Some(snapshot) => ReplacementView(codec, b, id, snapshot, CatchUpsIn(since))
    case None => BLANK
  }

  /** An update in whose scope the backend is, with state for it. */
  predicate Delivers(codec: Codec, b: Backend, m: ReplayMessage) {
    m.envelope.payload.Update? && b in m.entry.scope && Carries(codec, b, m.envelope.payload.update)
  }

  function ViewAt(codec: Codec, p: Processor, id: string, ms: seq<ReplayMessage>): PoolView {
    if ms == [] then View(p.store.content, id)
    else
      var before, m := ViewAt(codec, p, id, ms[..|ms| - 1]), ms[|ms| - 1];
      if Delivers(codec, p.backend, m) then UpdateView(codec, p.backend, id, before, m.envelope.payload.update)
      else if CommitsFor(m, p.backend) then CommittedView(codec, p.backend, id, ms[..|ms| - 1])
      else before
  }

  /** The version of the last update delivered or commit naming the backend. */
  function VersionAt(codec: Codec, p: Processor, ms: seq<ReplayMessage>): u64 {
    if ms == [] then p.store.content.version
    else
      var m := ms[|ms| - 1];
      if Delivers(codec, p.backend, m) then m.entry.stateVersion
      else if CommitsFor(m, p.backend) then m.envelope.payload.commit.targetStateVersion
      else VersionAt(codec, p, ms[..|ms| - 1])
  }

  ghost predicate SomePool(codec: Codec, p: Processor, ms: seq<ReplayMessage>) {
    exists id :: ViewAt(codec, p, id, ms).pool.Some?
  }

  /**
   Requests are refused from a Start naming the backend until its next delivery or commit,
   and whenever the backend has no pool then.
   */
  ghost predicate ServedAt(codec: Codec, p: Processor, ms: seq<ReplayMessage>) {
    if ms == [] then p.store.requestsAllowed
    else
      var m := ms[|ms| - 1];
      if Delivers(codec, p.backend, m) || CommitsFor(m, p.backend) then SomePool(codec, p, ms)
      else
        && ServedAt(codec, p, ms[..|ms| - 1])
        && !(m.envelope.payload.Start? && p.backend in m.envelope.payload.manifest.backends)
  }

  /** The store is what the run so far says. */
  ghost predicate StoreTold(codec: Codec, p: Processor, ms: seq<ReplayMessage>, s: Store) {
    && (forall id :: View(s.content, id) == ViewAt(codec, p, id, ms))
    && s.content.version == VersionAt(codec, p, ms)
    && (s.requestsAllowed <==> ServedAt(codec, p, ms))
  }

  // One message.

  lemma ReadyMeansSomePool(codec: Codec, p: Processor, ms: seq<ReplayMessage>, c: Content)
    requires forall id :: View(c, id) == ViewAt(codec, p, id, ms)
    ensures c.pools != map[] <==> SomePool(codec, p, ms)
  {
    if c.pools != map[] {
      var id :| id in c.pools;
      assert View(c, id).pool.Some?;
    }
    if SomePool(codec, p, ms) {
      var id :| ViewAt(codec, p, id, ms).pool.Some?;
      assert View(c, id) == ViewAt(codec, p, id, ms);
    }
  }

  /** A message that neither delivers nor commits leaves all but the fence as it was. */
  lemma OtherTold(codec: Codec, p: Processor, ms: seq<ReplayMessage>, m: ReplayMessage, before: Store, after: Store)
    requires StoreTold(codec, p, ms, before)
    requires !Delivers(codec, p.backend, m) && !CommitsFor(m, p.backend)
    requires after == if m.envelope.payload.Start? && p.backend in m.envelope.payload.manifest.backends then Fence(before)
                      else before
    ensures StoreTold(codec, p, ms + [m], after)
  {
    assert (ms + [m])[..|ms|] == ms;
  }

  lemma DeliveryTold(codec: Codec, p: Processor, ms: seq<ReplayMessage>, m: ReplayMessage, before: Store, after: Store)
    requires StoreTold(codec, p, ms, before) && Delivers(codec, p.backend, m)
    requires (forall id :: View(after.content, id) ==
                UpdateView(codec, p.backend, id, View(before.content, id), m.envelope.payload.update))
    requires Republished(before, true, m.entry.stateVersion, after)
    ensures StoreTold(codec, p, ms + [m], after)
  {
    assert (ms + [m])[..|ms|] == ms;
    forall id ensures View(after.content, id) == ViewAt(codec, p, id, ms + [m]) {
      assert View(before.content, id) == ViewAt(codec, p, id, ms);
    }
    ReadyMeansSomePool(codec, p, ms + [m], after.content);
  }

  lemma DeltaTold(codec: Codec, chainId: u64, p: Processor, ms: seq<ReplayMessage>, live: Processor, m: ReplayMessage)
    requires StoreTold(codec, p, ms, live.store) && live.backend == p.backend && live.tracker.state.Live?
    requires ObserveDelta(codec, chainId, live, m.entry, m.envelope).done.Ok?
    ensures StoreTold(codec, p, ms + [m], ObserveDelta(codec, chainId, live, m.entry, m.envelope).processor.store)
  {
    var after := ObserveDelta(codec, chainId, live, m.entry, m.envelope).processor;
    if m.envelope.payload.Update? && live.backend in m.entry.scope {
      var parts := m.envelope.payload.update;
      UpdateObserved(codec, chainId, live, m.envelope, Some(m.entry.stateVersion));
      var seen := live.(tracker := after.tracker);
      forall id ensures View(after.store.content, id) == UpdateView(codec, p.backend, id, View(live.store.content, id), parts)
        ensures Republished(live.store, Carries(codec, p.backend, parts), m.entry.stateVersion, after.store)
      {
        AppliedView(codec, seen, parts, Some(m.entry.stateVersion), id);
      }
      AppliedView(codec, seen, parts, Some(m.entry.stateVersion), "");
      if Delivers(codec, p.backend, m) {
        DeliveryTold(codec, p, ms, m, live.store, after.store);
      } else {
        OtherTold(codec, p, ms, m, live.store, after.store);
      }
    } else {
      DeltaAdvancesTracker(codec, chainId, live, m.entry, m.envelope);
      QuietDelta(codec, chainId, live, m);
      OtherTold(codec, p, ms, m, live.store, after.store);
    }
  }

  /** Everything an ordinary entry must be for a live processor to take it. */
  ghost predicate DeltaFits(codec: Codec, live: Processor, m: ReplayMessage) {
    if live.backend !in m.entry.scope then Skip(live.tracker, m.envelope).Ok?
    else
      && Observe(codec.protocols, live.tracker, m.envelope).Ok?
      && (m.envelope.payload.Update? ==>
            && Readable(codec, live.backend, m.envelope.payload.update)
            && (Delivers(codec, live.backend, m) ==> m.entry.stateVersion > live.store.content.version))
  }

  /** An ordinary entry is taken exactly when the tracker accepts it, its raw messages can be read and it is newer. */
  lemma DeltaAcceptedExactly(codec: Codec, chainId: u64, live: Processor, m: ReplayMessage)
    requires live.tracker.state.Live?
    ensures ObserveDelta(codec, chainId, live, m.entry, m.envelope).done.Ok? <==> DeltaFits(codec, live, m)
  {
    if live.backend in m.entry.scope && m.envelope.payload.Update?
       && Observe(codec.protocols, live.tracker, m.envelope).Ok?
    {
      ValidateUpdateExact(codec.protocols, m.envelope.payload.update);
      LiveTaken(codec, live.(tracker := Observe(codec.protocols, live.tracker, m.envelope).value.0),
                m.envelope.payload.update, m.entry.stateVersion);
    }
  }

  lemma LiveTaken(codec: Codec, p: Processor, parts: seq<UpdatePartition>, version: u64)
    requires OncePerBackend(parts)
    ensures ApplyLive(codec, p, parts, Some(version)).done.Ok? <==>
      Readable(codec, p.backend, parts) && (Carries(codec, p.backend, parts) ==> version > p.store.content.version)
  {
    DecodedOnce(codec, p.backend, parts);
  }

  /** A delta that is no update for the backend leaves its store alone. */
  lemma QuietDelta(codec: Codec, chainId: u64, live: Processor, m: ReplayMessage)
    requires live.tracker.state.Live? && ObserveDelta(codec, chainId, live, m.entry, m.envelope).done.Ok?
    requires !(m.envelope.payload.Update? && live.backend in m.entry.scope)
    ensures ObserveDelta(codec, chainId, live, m.entry, m.envelope).processor.store == live.store
  {
  }

  // A commit.

  lemma {:induction false} JoinedSnoc(chunks: seq<RecoveryChunk>, c: RecoveryChunk)
    ensures JoinFragments(chunks + [c]) == JoinFragments(chunks) + c.payloadFragment
    decreases |chunks|
  {
    if chunks == [] {
      assert [c][1..] == [];
    } else {
      JoinedSnoc(chunks[1..], c);
      assert (chunks + [c])[1..] == chunks[1..] + [c];
    }
  }

  lemma {:induction false} JoinedText(ms: seq<ReplayMessage>)
    ensures JoinFragments(ChunksIn(ms)) == TextOf(ms)
    decreases |ms|
  {
    if ms != [] {
      JoinedText(ms[..|ms| - 1]);
      var payload := ms[|ms| - 1].envelope.payload;
      if payload.Chunk? {
        JoinedSnoc(ChunksIn(ms[..|ms| - 1]), payload.chunk);
      }
    }
  }

  /** A map keyed 0..n-1 lists exactly its values in order. */
  lemma HeldInOrder<T>(m: map<u32, T>, i: nat)
    requires |m| <= U32_MAX && KeysBelow(m, |m|) && i < |ValuesInOrder(m)|
    ensures exists k: u32 :: k == i && k in m && ValuesInOrder(m)[i] == m[k]
  {
    var n := |m|;
    RangeValues(m, 0, n);
    var k: u32 := i;
    assert k in m && ValuesInOrder(m)[i - 0] == m[k];
  }

  lemma HeldCatchUpsOnce(codec: Codec, ms: seq<ReplayMessage>, streamKey: string, maxlen: Option<u64>, a: Assembly)
    requires AssemblyFits(codec, ms, streamKey, maxlen, a) && AssemblyInOrder(a)
    ensures CatchUpsOncePerBackend(ValuesInOrder(a.catchUps))
  {
    var values := ValuesInOrder(a.catchUps);
    forall i | 0 <= i < |values| ensures OncePerBackend(values[i].update) {
      HeldInOrder(a.catchUps, i);
      var k: u32 :| k == i && k in a.catchUps && values[i] == a.catchUps[k];
      assert CatchUpCame(codec, ms, a.manifest, k, a.catchUps[k]);
    }
  }

  /** The store that the rebuilt replacement becomes is what the run says after the commit. */
  lemma CommittedTold(codec: Codec, chainId: u64, p: Processor, ms: seq<ReplayMessage>, m: ReplayMessage, live: Processor,
                      snapshot: seq<Envelope>, catchUps: seq<RecoveryCatchUp>, after: Store)
    requires CommitsFor(m, p.backend) && live.backend == p.backend
    requires codec.replacement(TextOf(ms[LastStart(ms)..])) == Some(snapshot)
    requires catchUps == CatchUpsIn(ms[LastStart(ms)..]) && CatchUpsOncePerBackend(catchUps)
    requires var version := m.envelope.payload.commit.targetStateVersion;
      var rebuilt := Rebuild(codec, chainId, live, version, snapshot, catchUps);
      rebuilt.Ok? && after == Published(rebuilt.value.content.(version := version))
    ensures StoreTold(codec, p, ms + [m], after)
  {
    assert (ms + [m])[..|ms|] == ms;
    var version := m.envelope.payload.commit.targetStateVersion;
    forall id ensures View(after.content, id) == ViewAt(codec, p, id, ms + [m]) {
      RebuiltView(codec, chainId, live, version, snapshot, catchUps, id);
    }
    ReadyMeansSomePool(codec, p, ms + [m], after.content);
  }

  lemma CommitTold(codec: Codec, origin: Sub, ms: seq<ReplayMessage>, sub: Sub, c: Checkpoint, next: u64, m: ReplayMessage,
                   after: Sub, i: nat)
    requires Tells(codec, origin, ms, sub) && Inv(sub, c, next) && HeldFit(codec, ms, sub)
    requires m.envelope.payload.Commit? && sub.recovery.Some?
    requires var a, commit := sub.recovery.value, m.envelope.payload.commit;
      var checked := CheckCommit(codec, sub, a, m.entry.messageSeq, commit);
      checked.Ok? && AllSwapped(codec, sub, after, a.manifest, checked.value, ValuesInOrder(a.catchUps))
    requires i < |sub.processors| == |origin.processors| == |after.processors|
    requires StoreTold(codec, origin.processors[i].processor, ms, sub.processors[i].processor.store)
    ensures StoreTold(codec, origin.processors[i].processor, ms + [m], after.processors[i].processor.store)
  {
    var a, commit := sub.recovery.value, m.envelope.payload.commit;
    var p, live := origin.processors[i].processor, sub.processors[i].processor;
    assert TellsAt(codec, origin, ms, sub, i);
    CommitCheckedExactly(codec, sub, a, m.entry.messageSeq, commit);
    if Named(sub.processors[i], a.manifest) {
      var snapshot := CheckCommit(codec, sub, a, m.entry.messageSeq, commit).value;
      JoinedText(ms[LastStart(ms)..]);
      HeldCatchUpsOnce(codec, ms, sub.boundary.streamKey, sub.redisMaxlen, a);
      CommittedTold(codec, sub.chainId, p, ms, m, live, snapshot, ValuesInOrder(a.catchUps),
                    after.processors[i].processor.store);
    } else {
      OtherTold(codec, p, ms, m, live.store, after.processors[i].processor.store);
    }
  }

  // Starts, Chunks and Catch-ups.

  lemma FragmentStores(codec: Codec, sub: Sub, m: ReplayMessage, i: nat)
    requires m.envelope.payload.Recovery() && !m.envelope.payload.Commit? && i < |sub.processors|
    requires ApplyOne(codec, sub, m).done.Ok?
    ensures i < |ApplyOne(codec, sub, m).sub.processors|
    ensures var before := sub.processors[i].processor;
      ApplyOne(codec, sub, m).sub.processors[i].processor.store ==
      if m.envelope.payload.Start? && before.backend in m.envelope.payload.manifest.backends then Fence(before.store)
      else before.store
  {
    if m.envelope.payload.Start? {
      FencePointwise(sub.processors, 0, m.envelope.payload.manifest);
    }
  }

  // The run.

  /** Every backend's store is what the run so far says. */
  ghost predicate StoresTold(codec: Codec, origin: Sub, ms: seq<ReplayMessage>, sub: Sub) {
    && |sub.processors| == |origin.processors|
    && forall i :: 0 <= i < |sub.processors| ==>
         StoreTold(codec, origin.processors[i].processor, ms, sub.processors[i].processor.store)
  }

  ghost predicate PoolsReached(codec: Codec, origin: Sub, ms: seq<ReplayMessage>, sub: Sub, c: Checkpoint) {
    Reached(codec, origin, ms, sub, c) && HeldFit(codec, ms, sub) && StoresTold(codec, origin, ms, sub)
  }

  lemma OrdinaryStoresTold(codec: Codec, origin: Sub, ms: seq<ReplayMessage>, sub: Sub, c: Checkpoint, next: u64,
                           m: ReplayMessage, i: nat)
    requires Tells(codec, origin, ms, sub) && Inv(sub, c, next) && Follows(c, m) && sub.recovery.None?
    requires i < |sub.processors| && StoresTold(codec, origin, ms, sub)
    requires ObserveFrom(codec, sub.chainId, sub.processors, 0, m).done.Ok?
    ensures var ps := ObserveFrom(codec, sub.chainId, sub.processors, 0, m).processors;
      |ps| == |sub.processors| && StoreTold(codec, origin.processors[i].processor, ms + [m], ps[i].processor.store)
  {
    assert [m][0] == m;
    assert TellsAt(codec, origin, ms, sub, i);
    ObservePointwise(codec, sub.chainId, sub.processors, 0, m);
    assert Observed(codec, sub.chainId, sub.processors[i], m).done.Ok?;
    DeltaTold(codec, sub.chainId, origin.processors[i].processor, ms, sub.processors[i].processor, m);
  }

  lemma StepTold(codec: Codec, origin: Sub, ms: seq<ReplayMessage>, sub: Sub, c: Checkpoint, next: u64, m: ReplayMessage)
    requires Tells(codec, origin, ms, sub) && Inv(sub, c, next) && Follows(c, m) && |sub.processors| > 0
    requires HeldFit(codec, ms, sub) && StoresTold(codec, origin, ms, sub)
    requires ApplyOne(codec, sub, m).done.Ok?
    ensures StoresTold(codec, origin, ms + [m], ApplyOne(codec, sub, m).sub)
  {
    AppliedKeepsInv(codec, sub, c, next, m);
    var after := ApplyOne(codec, sub, m).sub;
    forall i | 0 <= i < |sub.processors|
      ensures StoreTold(codec, origin.processors[i].processor, ms + [m], after.processors[i].processor.store)
    {
      if m.envelope.payload.Commit? {
        CommitStep(codec, sub, c, next, m);
        CommitIsAllOrNothing(codec, sub, c, next, m);
        CommitTold(codec, origin, ms, sub, c, next, m, after, i);
      } else if m.envelope.payload.Recovery() {
        FragmentStores(codec, sub, m, i);
        assert TellsAt(codec, origin, ms, sub, i);
        OtherTold(codec, origin.processors[i].processor, ms, m, sub.processors[i].processor.store,
                  after.processors[i].processor.store);
      } else {
        OrdinaryStep(codec, sub, c, next, m);
        OrdinaryStoresTold(codec, origin, ms, sub, c, next, m, i);
      }
    }
  }

  lemma StepReachesPools(codec: Codec, origin: Sub, ms: seq<ReplayMessage>, sub: Sub, c: Checkpoint, m: ReplayMessage)
    requires PoolsReached(codec, origin, ms, sub, c) && Follows(c, m) && ApplyOne(codec, sub, m).done.Ok?
    ensures PoolsReached(codec, origin, ms + [m], After(codec, sub, m), m.checkpointAfter)
  {
    var next: u64 :| Inv(sub, c, next);
    StepTold(codec, origin, ms, sub, c, next, m);
    StepReaches(codec, origin, ms, sub, c, m);
    StepKeepsFit(codec, ms, sub, m);
  }

  ghost function PoolsReachedFrom(codec: Codec, origin: Sub): Relation {
    (run, s, at) => PoolsReached(codec, origin, run, s, at)
  }

  lemma RunBegins(codec: Codec, sub: Sub, c: Checkpoint)
    requires Bootstrapped(sub, c)
    ensures PoolsReached(codec, sub, [], sub, c)
  {
    BootstrapTells(codec, sub);
    assert Inv(sub, c, sub.boundary.exclusiveSeq + 1);
  }

  lemma EveryStepReaches(codec: Codec, origin: Sub)
    ensures Kept(StepOf(codec), PoolsReachedFrom(codec, origin))
  {
    forall run, s, at, m ensures KeptAt(StepOf(codec), PoolsReachedFrom(codec, origin), run, s, at, m) {
      if PoolsReached(codec, origin, run, s, at) && Follows(at, m) && ApplyOne(codec, s, m).done.Ok? {
        StepReachesPools(codec, origin, run, s, at, m);
      }
    }
  }

  /**
   Over every run of applied messages, every pool of every backend is what the updates,
   removals, replacements and catch-ups on the wire say, at their block and version, and is
   served exactly when no Start has fenced the backend since.
   */
  lemma EveryPoolAsTold(codec: Codec, sub: Sub, c: Checkpoint, items: seq<ReplayMessage>)
    requires Bootstrapped(sub, c) && Contiguous(c, items)
    requires ApplyBatch(codec, sub, c, items).done.Ok?
    ensures StoresTold(codec, sub, items, ApplyBatch(codec, sub, c, items).sub)
  {
    RunBegins(codec, sub, c);
    EveryStepReaches(codec, sub);
    BatchKeeps(StepOf(codec), PoolsReachedFrom(codec, sub), [], sub, c, items);
    assert [] + items == items;
  }

  /**
   A backend named by a Start is refused requests until its own next delivery or commit: a
   later Start that no longer names it, and that Start's commit, do not lift the fence.
   */
  lemma {:induction false} FencedUntilDelivered(codec: Codec, p: Processor, ms: seq<ReplayMessage>, k: nat)
    requires k < |ms| && ms[k].envelope.payload.Start? && p.backend in ms[k].envelope.payload.manifest.backends
    requires forall j :: k < j < |ms| ==> !Delivers(codec, p.backend, ms[j]) && !CommitsFor(ms[j], p.backend)
    ensures !ServedAt(codec, p, ms)
    decreases |ms|
  {
    if k < |ms| - 1 {
      FencedUntilDelivered(codec, p, ms[..|ms| - 1], k);
    }
  }

  // Versions only rise.

  /** Every delivery and every commit naming the backend raises its version. */
  ghost predicate Rises(codec: Codec, p: Processor, ms: seq<ReplayMessage>) {
    forall k :: 0 <= k < |ms| && (Delivers(codec, p.backend, ms[k]) || CommitsFor(ms[k], p.backend)) ==>
      VersionAt(codec, p, ms[..k + 1]) > VersionAt(codec, p, ms[..k])
  }

  lemma RisesFurther(codec: Codec, p: Processor, ms: seq<ReplayMessage>, m: ReplayMessage)
    requires Rises(codec, p, ms)
    requires Delivers(codec, p.backend, m) || CommitsFor(m, p.backend) ==>
      VersionAt(codec, p, ms + [m]) > VersionAt(codec, p, ms)
    ensures Rises(codec, p, ms + [m])
  {
    var all := ms + [m];
    forall k | 0 <= k < |all| && (Delivers(codec, p.backend, all[k]) || CommitsFor(all[k], p.backend))
      ensures VersionAt(codec, p, all[..k + 1]) > VersionAt(codec, p, all[..k])
    {
      if k < |ms| {
        assert all[..k + 1] == ms[..k + 1] && all[..k] == ms[..k] && all[k] == ms[k];
      } else {
        assert all[..k + 1] == all && all[..k] == ms;
      }
    }
  }

  lemma OrdinaryRises(codec: Codec, sub: Sub, c: Checkpoint, next: u64, m: ReplayMessage, i: nat)
    requires Inv(sub, c, next) && Follows(c, m) && sub.recovery.None? && i < |sub.processors|
    requires ObserveFrom(codec, sub.chainId, sub.processors, 0, m).done.Ok?
    requires Delivers(codec, sub.processors[i].processor.backend, m)
    ensures m.entry.stateVersion > sub.processors[i].processor.store.content.version
  {
    assert [m][0] == m;
    ObservePointwise(codec, sub.chainId, sub.processors, 0, m);
    assert Observed(codec, sub.chainId, sub.processors[i], m).done.Ok?;
    DeltaAcceptedExactly(codec, sub.chainId, sub.processors[i].processor, m);
  }

  lemma CommitRises(codec: Codec, sub: Sub, c: Checkpoint, next: u64, m: ReplayMessage, i: nat)
    requires Inv(sub, c, next) && Follows(c, m) && i < |sub.processors| && ApplyOne(codec, sub, m).done.Ok?
    requires CommitsFor(m, sub.processors[i].processor.backend)
    ensures m.envelope.payload.commit.targetStateVersion > sub.processors[i].processor.store.content.version
  {
    CommitStep(codec, sub, c, next, m);
    CommitCheckedExactly(codec, sub, sub.recovery.value, m.entry.messageSeq, m.envelope.payload.commit);
    assert Named(sub.processors[i], sub.recovery.value.manifest);
  }

  lemma StepRises(codec: Codec, origin: Sub, ms: seq<ReplayMessage>, sub: Sub, c: Checkpoint, next: u64, m: ReplayMessage, i: nat)
    requires Tells(codec, origin, ms, sub) && StoresTold(codec, origin, ms, sub) && i < |sub.processors|
    requires Inv(sub, c, next) && Follows(c, m) && ApplyOne(codec, sub, m).done.Ok?
    requires Rises(codec, origin.processors[i].processor, ms)
    ensures Rises(codec, origin.processors[i].processor, ms + [m])
  {
    var p := origin.processors[i].processor;
    assert TellsAt(codec, origin, ms, sub, i);
    assert (ms + [m])[..|ms|] == ms;
    if CommitsFor(m, p.backend) {
      CommitRises(codec, sub, c, next, m, i);
    } else if Delivers(codec, p.backend, m) {
      OrdinaryStep(codec, sub, c, next, m);
      OrdinaryRises(codec, sub, c, next, m, i);
    }
    RisesFurther(codec, p, ms, m);
  }

  ghost predicate AllRise(codec: Codec, origin: Sub, ms: seq<ReplayMessage>) {
    forall i :: 0 <= i < |origin.processors| ==> Rises(codec, origin.processors[i].processor, ms)
  }

  ghost function RisingFrom(codec: Codec, origin: Sub): Relation {
    (run, s, at) => PoolsReached(codec, origin, run, s, at) && AllRise(codec, origin, run)
  }

  lemma EveryStepRises(codec: Codec, origin: Sub)
    ensures Kept(StepOf(codec), RisingFrom(codec, origin))
  {
    forall run, s, at, m ensures KeptAt(StepOf(codec), RisingFrom(codec, origin), run, s, at, m) {
      if RisingFrom(codec, origin)(run, s, at) && Follows(at, m) && ApplyOne(codec, s, m).done.Ok? {
        StepReachesPools(codec, origin, run, s, at, m);
        StepAllRise(codec, origin, run, s, at, m);
      }
    }
  }

  lemma StepAllRise(codec: Codec, origin: Sub, ms: seq<ReplayMessage>, sub: Sub, c: Checkpoint, m: ReplayMessage)
    requires PoolsReached(codec, origin, ms, sub, c) && AllRise(codec, origin, ms)
    requires Follows(c, m) && ApplyOne(codec, sub, m).done.Ok?
    ensures AllRise(codec, origin, ms + [m])
  {
    var next: u64 :| Inv(sub, c, next);
    forall i | 0 <= i < |origin.processors| ensures Rises(codec, origin.processors[i].processor, ms + [m]) {
      StepRises(codec, origin, ms, sub, c, next, m, i);
    }
  }

  /** Over every run each delivery and each commit serves its backend at a strictly higher version. */
  lemma VersionsRise(codec: Codec, sub: Sub, c: Checkpoint, items: seq<ReplayMessage>)
    requires Bootstrapped(sub, c) && Contiguous(c, items)
    requires ApplyBatch(codec, sub, c, items).done.Ok?
    ensures AllRise(codec, sub, items)
  {
    RunBegins(codec, sub, c);
    assert AllRise(codec, sub, []);
    EveryStepRises(codec, sub);
    BatchKeeps(StepOf(codec), RisingFrom(codec, sub), [], sub, c, items);
    assert [] + items == items;
  }

  // What one run means for one pool.

  /** What the message says about the id to the backend, silence included. */
  function Said(codec: Codec, b: Backend, id: string, m: ReplayMessage): Mention {
    if Delivers(codec, b, m) then MentionIn(codec, b, PartFor(m.envelope.payload.update, b).value, id) else SILENT
  }

  /** Without a commit the last message does to the pool what it says. */
  lemma PoolNext(codec: Codec, p: Processor, id: string, ms: seq<ReplayMessage>)
    requires ms != [] && !CommitsFor(ms[|ms| - 1], p.backend)
    ensures ViewAt(codec, p, id, ms).pool ==
      PoolAfter(codec.protocols, ViewAt(codec, p, id, ms[..|ms| - 1]).pool, Said(codec, p.backend, id, ms[|ms| - 1]))
  {
  }

  /** The last message to say anything about the pool, with no commit since, decides it. */
  lemma {:induction false} LastDeltaDecides(codec: Codec, p: Processor, id: string, ms: seq<ReplayMessage>, k: nat)
    requires k < |ms| && !CommitsFor(ms[k], p.backend)
    requires forall j :: k < j < |ms| ==> !CommitsFor(ms[j], p.backend) && Said(codec, p.backend, id, ms[j]) == SILENT
    ensures ViewAt(codec, p, id, ms).pool ==
      PoolAfter(codec.protocols, ViewAt(codec, p, id, ms[..k]).pool, Said(codec, p.backend, id, ms[k]))
    decreases |ms|
  {
    var n := |ms| - 1;
    PoolNext(codec, p, id, ms);
    if k < n {
      LastDeltaDecides(codec, p, id, ms[..n], k);
      assert ms[..n][..k] == ms[..k];
    }
  }

  /** The mention brings the pool in: a known component with a state, not removed by the same update. */
  predicate Adds(p: Protocols, m: Mention) {
    !m.removed && m.component.Some? && m.state.Some? && p.componentKind(m.component.value).Some?
  }

  /** A removed pool stays out of service until an update adds it or a commit replaces the backend. */
  lemma {:induction false} RemovedStaysAway(codec: Codec, p: Processor, id: string, ms: seq<ReplayMessage>, k: nat)
    requires k < |ms| && Said(codec, p.backend, id, ms[k]).removed
    requires forall j :: k < j < |ms| ==>
      !CommitsFor(ms[j], p.backend) && !Adds(codec.protocols, Said(codec, p.backend, id, ms[j]))
    ensures ViewAt(codec, p, id, ms).pool == None
    decreases |ms|
  {
    var n := |ms| - 1;
    if k < n {
      PoolNext(codec, p, id, ms);
      RemovedStaysAway(codec, p, id, ms[..n], k);
    } else {
      PoolNext(codec, p, id, ms);
    }
  }

  /**
   One observed update, read off its own partition: removals are gone, known new pairs are in
   with their last component and state, deltas replace the state of held pools, and nothing
   else moves.
   */
  lemma ObservedPartition(codec: Codec, chainId: u64, live: Processor, m: ReplayMessage, part: UpdatePartition)
    requires live.tracker.state.Live? && ObserveDelta(codec, chainId, live, m.entry, m.envelope).done.Ok?
    requires m.envelope.payload.Update? && live.backend in m.entry.scope
    requires part in m.envelope.payload.update && part.backend == live.backend && part.messages == []
    ensures var before := live.store.content;
      var now := ObserveDelta(codec, chainId, live, m.entry, m.envelope).processor.store.content;
      && now.version == m.entry.stateVersion && now.block == part.blockNumber
      && (forall id :: id in now.pools ==> !Removes(part.removedPairs, id))
      && (forall i :: 0 <= i < |part.newPairs| && LastEntry(part.newPairs, i) ==>
            EntersAs(codec.protocols, part, part.newPairs[i], now))
      && (forall i :: 0 <= i < |part.updatedStates| && LastDelta(part.updatedStates, i) ==>
            Replaces(part, part.updatedStates[i], before, now))
      && (forall id :: !Mentioned(part, id) ==> Lookup(now.pools, id) == Lookup(before.pools, id))
  {
    UpdateObserved(codec, chainId, live, m.envelope, Some(m.entry.stateVersion));
    var now := ObserveDelta(codec, chainId, live, m.entry, m.envelope).processor.store.content;
    OnlyPart(m.envelope.payload.update, part);
    forall id ensures Lookup(now.pools, id) == PoolAfter(codec.protocols, Lookup(live.store.content.pools, id), MentionOf(part, id))
      ensures now.version == m.entry.stateVersion && now.block == part.blockNumber
    {
      DeliveredPool(codec, chainId, live, m, part, id);
    }
    DeliveredPool(codec, chainId, live, m, part, "");
    PartitionMeans(codec.protocols, part, live.store.content, now);
  }

  ghost predicate Mentioned(part: UpdatePartition, id: string) {
    || Removes(part.removedPairs, id)
    || (exists i :: 0 <= i < |part.newPairs| && part.newPairs[i].componentId == id)
    || (exists i :: 0 <= i < |part.updatedStates| && part.updatedStates[i].componentId == id)
  }

  /** A known new pair not removed at once is served with its component and the state last given. */
  ghost predicate EntersAs(p: Protocols, part: UpdatePartition, e: StateEntry, now: Content) {
    !Removes(part.removedPairs, e.componentId) && p.componentKind(e.component).Some? ==>
      && e.componentId in now.pools
      && now.pools[e.componentId].component == e.component
      && (now.pools[e.componentId].state ==
            var d := DeltaFor(part.updatedStates, e.componentId); if d.Some? then d.value.state else e.state)
  }

  /** A delta for a held pool, neither added nor removed by the same update, replaces its state. */
  ghost predicate Replaces(part: UpdatePartition, d: StateDelta, before: Content, now: Content) {
    && !Removes(part.removedPairs, d.componentId)
    && (forall i :: 0 <= i < |part.newPairs| ==> part.newPairs[i].componentId != d.componentId)
    && d.componentId in before.pools
    ==> d.componentId in now.pools && now.pools[d.componentId] == before.pools[d.componentId].(state := d.state)
  }

  lemma {:induction false} OnlyPart(parts: seq<UpdatePartition>, part: UpdatePartition)
    requires OncePerBackend(parts) && part in parts
    ensures PartFor(parts, part.backend) == Some(part)
    decreases |parts|
  {
    if parts[0].backend != part.backend {
      assert forall i :: 0 < i < |parts| ==> parts[1..][i - 1] == parts[i];
      OnlyPart(parts[1..], part);
    } else {
      var i :| 0 <= i < |parts| && parts[i] == part;
    }
  }

  lemma DeliveredPool(codec: Codec, chainId: u64, live: Processor, m: ReplayMessage, part: UpdatePartition, id: string)
    requires live.tracker.state.Live? && ObserveDelta(codec, chainId, live, m.entry, m.envelope).done.Ok?
    requires m.envelope.payload.Update? && live.backend in m.entry.scope && part.messages == []
    requires PartFor(m.envelope.payload.update, live.backend) == Some(part)
    ensures var now := ObserveDelta(codec, chainId, live, m.entry, m.envelope).processor.store.content;
      && Lookup(now.pools, id) == PoolAfter(codec.protocols, Lookup(live.store.content.pools, id), MentionOf(part, id))
      && now.version == m.entry.stateVersion && now.block == part.blockNumber
  {
    var parts := m.envelope.payload.update;
    UpdateObserved(codec, chainId, live, m.envelope, Some(m.entry.stateVersion));
    var after := ObserveDelta(codec, chainId, live, m.entry, m.envelope).processor;
    AppliedView(codec, live.(tracker := after.tracker), parts, Some(m.entry.stateVersion), id);
  }

  lemma PartitionMeans(p: Protocols, part: UpdatePartition, before: Content, now: Content)
    requires forall id :: Lookup(now.pools, id) == PoolAfter(p, Lookup(before.pools, id), MentionOf(part, id))
    ensures forall id :: id in now.pools ==> !Removes(part.removedPairs, id)
    ensures forall i :: 0 <= i < |part.newPairs| && LastEntry(part.newPairs, i) ==> EntersAs(p, part, part.newPairs[i], now)
    ensures forall i :: 0 <= i < |part.updatedStates| && LastDelta(part.updatedStates, i) ==>
      Replaces(part, part.updatedStates[i], before, now)
    ensures forall id :: !Mentioned(part, id) ==> Lookup(now.pools, id) == Lookup(before.pools, id)
  {
    forall id | id in now.pools ensures !Removes(part.removedPairs, id) {
      assert Lookup(now.pools, id).Some?;
    }
    forall i | 0 <= i < |part.newPairs| && LastEntry(part.newPairs, i) ensures EntersAs(p, part, part.newPairs[i], now) {
      var id := part.newPairs[i].componentId;
      assert EntryFor(part.newPairs, id) == Some(part.newPairs[i]);
      assert Lookup(now.pools, id) == PoolAfter(p, Lookup(before.pools, id), MentionOf(part, id));
    }
    forall i | 0 <= i < |part.updatedStates| && LastDelta(part.updatedStates, i)
      ensures Replaces(part, part.updatedStates[i], before, now)
    {
      var id := part.updatedStates[i].componentId;
      assert DeltaFor(part.updatedStates, id) == Some(part.updatedStates[i]);
      assert Lookup(now.pools, id) == PoolAfter(p, Lookup(before.pools, id), MentionOf(part, id));
    }
    forall id | !Mentioned(part, id) ensures Lookup(now.pools, id) == Lookup(before.pools, id) {
      assert MentionOf(part, id) == SILENT;
    }
  }
}
