/**
 The meaning of a whole run, read off the message sequence alone: each backend's content is
 its last committed replacement (or the bootstrap content) with that recovery's catch-ups,
 followed by every later ordinary delta exactly once.
 */
module RecoveryRuns {
  import opened Wrappers
  import opened Wire
  import opened Contracts
  import opened EntryIds
  import opened Trackers
  import opened Replay
  import opened StateStores
  import opened Subscription
  import opened Batches
  import opened RecoveryInvariant
  import opened RecoveryCommit

  // The reference.

  /** One backend's content after one message read as an ordinary delta. */
  function DeltaContent(codec: Codec, b: Backend, c: Option<Content>, m: ReplayMessage): Option<Content> {
    if c.None? || !m.envelope.payload.Update? || b !in m.entry.scope then c
    else
      match DecodeLive(codec, b, m.envelope.payload.update, Decoded(None, None, None))
      case Err(_) => None
      case Ok(decoded) =>
        match LiveContent(codec, b, Published(c.value), decoded, Some(m.entry.stateVersion))
        case Err(_) => None
        case Ok(store) => Some(store.content)
  }

  function FoldDeltas(codec: Codec, b: Backend, c: Option<Content>, ms: seq<ReplayMessage>): Option<Content> {
    if ms == [] then c
    else DeltaContent(codec, b, FoldDeltas(codec, b, c, ms[..|ms| - 1]), ms[|ms| - 1])
  }

  predicate CommitsFor(m: ReplayMessage, b: Backend) {
    m.envelope.payload.Commit? && b in m.envelope.payload.commit.backends
  }

  /** How many messages the run has up to and including its last commit naming the backend. */
  function LastCommit(ms: seq<ReplayMessage>, b: Backend): (n: nat)
    ensures n <= |ms|
  {
    if ms == [] then 0
    else if CommitsFor(ms[|ms| - 1], b) then |ms|
    else LastCommit(ms[..|ms| - 1], b)
  }

  /** How many messages the run has up to and including its last Start. */
  function LastStart(ms: seq<ReplayMessage>): (n: nat)
    ensures n <= |ms|
    ensures n > 0 ==> ms[n - 1].envelope.payload.Start?
  {
    if ms == [] then 0
    else if ms[|ms| - 1].envelope.payload.Start? then |ms|
    else LastStart(ms[..|ms| - 1])
  }

  function ChunksIn(ms: seq<ReplayMessage>): seq<RecoveryChunk> {
    if ms == [] then []
    else
      var rest := ChunksIn(ms[..|ms| - 1]);
      var payload := ms[|ms| - 1].envelope.payload;
      if payload.Chunk? then rest + [payload.chunk] else rest
  }

  function CatchUpsIn(ms: seq<ReplayMessage>): seq<RecoveryCatchUp> {
    if ms == [] then []
    else
      var rest := CatchUpsIn(ms[..|ms| - 1]);
      var payload := ms[|ms| - 1].envelope.payload;
      if payload.CatchUp? then rest + [payload.catchUp] else rest
  }

  /**
   The replacement a commit installs: the fragments since the last Start joined in order,
   decoded and replayed into an empty store, then the catch-ups since that Start in order.
   `ms` is the run before the commit message, `p` any processor of the backend.
   */
  function Replacement(codec: Codec, chainId: u64, p: Processor, ms: seq<ReplayMessage>): Option<Content> {
    var start := LastStart(ms);
    if start == 0 then None
    else
      var manifest := ms[start - 1].envelope.payload.manifest;
      match codec.replacement(JoinFragments(ChunksIn(ms[start..])))
      case None => None
      case Some(snapshot) =>
        match Rebuild(codec, chainId, p, manifest.targetStateVersion, snapshot, CatchUpsIn(ms[start..]))
        case Err(_) => None
        case Ok(store) => Some(store.content.(version := manifest.targetStateVersion))
  }

  /** The reference content of the backend that `p` served when the run began. */
  function Reference(codec: Codec, chainId: u64, p: Processor, ms: seq<ReplayMessage>): Option<Content> {
    var commit := LastCommit(ms, p.backend);
    if commit == 0 then FoldDeltas(codec, p.backend, Some(p.store.content), ms)
    else FoldDeltas(codec, p.backend, Replacement(codec, chainId, p, ms[..commit - 1]), ms[commit..])
  }

  // How the reference grows by one message.

  lemma FoldOneMore(codec: Codec, b: Backend, c: Option<Content>, ms: seq<ReplayMessage>, m: ReplayMessage)
    ensures FoldDeltas(codec, b, c, ms + [m]) == DeltaContent(codec, b, FoldDeltas(codec, b, c, ms), m)
  {
    assert (ms + [m])[..|ms|] == ms;
  }

  lemma ReferenceAfterOther(codec: Codec, chainId: u64, p: Processor, ms: seq<ReplayMessage>, m: ReplayMessage)
    requires !CommitsFor(m, p.backend)
    ensures Reference(codec, chainId, p, ms + [m]) ==
      DeltaContent(codec, p.backend, Reference(codec, chainId, p, ms), m)
  {
    var all := ms + [m];
    assert all[..|all| - 1] == ms;
    var commit := LastCommit(ms, p.backend);
    assert LastCommit(all, p.backend) == commit;
    if commit > 0 {
      var base := Replacement(codec, chainId, p, ms[..commit - 1]);
      assert all[..commit - 1] == ms[..commit - 1];
      assert all[commit..] == ms[commit..] + [m];
      FoldOneMore(codec, p.backend, base, ms[commit..], m);
    } else {
      FoldOneMore(codec, p.backend, Some(p.store.content), ms, m);
    }
  }

  lemma ReferenceAfterCommit(codec: Codec, chainId: u64, p: Processor, ms: seq<ReplayMessage>, m: ReplayMessage)
    requires CommitsFor(m, p.backend)
    ensures Reference(codec, chainId, p, ms + [m]) == Replacement(codec, chainId, p, ms)
  {
    var all := ms + [m];
    assert all[..|all| - 1] == ms;
    assert all[|all|..] == [];
  }

  // The assembly holds exactly the fragments since the last Start.

  lemma {:induction false} RangeValues<T>(m: map<u32, T>, lo: nat, hi: nat)
    requires lo <= hi <= U32_MAX + 1
    requires forall i: u32 :: i in m <==> lo <= i < hi
    ensures |ValuesInOrder(m)| == hi - lo
    ensures forall i :: lo <= i < hi ==> ValuesInOrder(m)[i - lo] == m[i]
    decreases hi - lo
  {
    if lo < hi {
      var first: u32 := lo;
      assert first in m;
      var k := LeastKeyOf(m);
      assert k == lo;
      var rest := m - {k};
      assert forall i: u32 :: i in rest <==> lo + 1 <= i < hi;
      RangeValues(rest, lo + 1, hi);
      assert ValuesInOrder(m) == [m[k]] + ValuesInOrder(rest);
      forall i | lo <= i < hi ensures ValuesInOrder(m)[i - lo] == m[i] {
        if lo < i {
          assert ValuesInOrder(rest)[i - (lo + 1)] == rest[i];
        }
      }
    } else {
      assert m == map[];
    }
  }

  lemma ValuesExtend<T>(m: map<u32, T>, k: u32, v: T)
    requires KeysBelow(m, k)
    ensures ValuesInOrder(m[k := v]) == ValuesInOrder(m) + [v]
  {
    RangeValues(m, 0, k);
    var n := m[k := v];
    RangeValues(n, 0, k + 1);
    forall i | 0 <= i < k + 1 ensures ValuesInOrder(n)[i] == (ValuesInOrder(m) + [v])[i] {
      assert ValuesInOrder(n)[i - 0] == n[i];
      if i < k {
        assert ValuesInOrder(m)[i - 0] == m[i];
      }
    }
  }

  ghost predicate HoldsFragments(a: Assembly, ms: seq<ReplayMessage>) {
    var start := LastStart(ms);
    && start > 0
    && ms[start - 1].envelope.payload.manifest == a.manifest
    && ValuesInOrder(a.chunks) == ChunksIn(ms[start..])
    && ValuesInOrder(a.catchUps) == CatchUpsIn(ms[start..])
  }

  lemma FragmentsGrow(ms: seq<ReplayMessage>, m: ReplayMessage)
    requires LastStart(ms) > 0 && !m.envelope.payload.Start?
    ensures var payload := m.envelope.payload;
      var start := LastStart(ms);
      && LastStart(ms + [m]) == start
      && (ms + [m])[start - 1] == ms[start - 1]
      && ChunksIn((ms + [m])[start..]) == ChunksIn(ms[start..]) + (if payload.Chunk? then [payload.chunk] else [])
      && CatchUpsIn((ms + [m])[start..]) == CatchUpsIn(ms[start..]) + (if payload.CatchUp? then [payload.catchUp] else [])
  {
    var all := ms + [m];
    assert all[..|all| - 1] == ms;
    var start := LastStart(ms);
    assert all[start..][..|all[start..]| - 1] == ms[start..];
  }

  /** What the run so far means for the live subscription. */
  ghost predicate Tells(codec: Codec, origin: Sub, ms: seq<ReplayMessage>, sub: Sub) {
    && sub.chainId == origin.chainId
    && |sub.processors| == |origin.processors|
    && (forall i :: 0 <= i < |sub.processors| ==> TellsAt(codec, origin, ms, sub, i))
    && (sub.recovery.Some? ==> HoldsFragments(sub.recovery.value, ms))
  }

  ghost predicate TellsAt(codec: Codec, origin: Sub, ms: seq<ReplayMessage>, sub: Sub, i: nat)
    requires i < |sub.processors| == |origin.processors|
  {
    var p, now := origin.processors[i].processor, sub.processors[i].processor;
    && now.backend == p.backend
    && now.logical == p.logical
    && Reference(codec, origin.chainId, p, ms) == Some(now.store.content)
  }

  lemma OrdinaryTells(codec: Codec, origin: Sub, ms: seq<ReplayMessage>, sub: Sub, c: Checkpoint, next: u64, m: ReplayMessage,
                      i: nat)
    requires Tells(codec, origin, ms, sub) && Inv(sub, c, next) && Follows(c, m) && |sub.processors| > 0
    requires !m.envelope.payload.Recovery() && ApplyOne(codec, sub, m).done.Ok?
    requires i < |sub.processors| == |ApplyOne(codec, sub, m).sub.processors|
    ensures TellsAt(codec, origin, ms + [m], ApplyOne(codec, sub, m).sub, i)
  {
    assert [m][0] == m;
    assert TellsAt(codec, origin, ms, sub, i);
    var live := sub.processors[i].processor;
    ObservePointwise(codec, sub.chainId, sub.processors, 0, m);
    assert Observed(codec, sub.chainId, sub.processors[i], m).done.Ok?;
    DeltaAdvancesTracker(codec, sub.chainId, live, m.entry, m.envelope);
    ReferenceAfterOther(codec, origin.chainId, origin.processors[i].processor, ms, m);
    DeltaMatches(codec, sub.chainId, live, m);
  }

  /** Observing or skipping a delta changes the content exactly as the reference reads it. */
  lemma DeltaMatches(codec: Codec, chainId: u64, p: Processor, m: ReplayMessage)
    requires p.tracker.state.Live? && ObserveDelta(codec, chainId, p, m.entry, m.envelope).done.Ok?
    ensures Some(ObserveDelta(codec, chainId, p, m.entry, m.envelope).processor.store.content)
         == DeltaContent(codec, p.backend, Some(p.store.content), m)
  {
  }

  lemma UnexposedTells(codec: Codec, origin: Sub, ms: seq<ReplayMessage>, sub: Sub, after: Sub, m: ReplayMessage)
    requires Tells(codec, origin, ms, sub) && m.envelope.payload.Recovery() && !m.envelope.payload.Commit?
    requires after.chainId == sub.chainId && |after.processors| == |sub.processors|
    requires forall i :: 0 <= i < |sub.processors| ==> Unexposed(sub.processors[i], after.processors[i])
    requires after.recovery.Some? ==> HoldsFragments(after.recovery.value, ms + [m])
    ensures Tells(codec, origin, ms + [m], after)
  {
    forall i | 0 <= i < |sub.processors| ensures TellsAt(codec, origin, ms + [m], after, i) {
      assert TellsAt(codec, origin, ms, sub, i);
      ReferenceAfterOther(codec, origin.chainId, origin.processors[i].processor, ms, m);
    }
  }

  lemma FragmentTells(codec: Codec, origin: Sub, ms: seq<ReplayMessage>, sub: Sub, m: ReplayMessage)
    requires Tells(codec, origin, ms, sub)
    requires sub.recovery.Some? ==> AssemblyInOrder(sub.recovery.value)
    requires m.envelope.payload.Recovery() && !m.envelope.payload.Commit?
    requires ApplyOne(codec, sub, m).done.Ok?
    ensures Tells(codec, origin, ms + [m], ApplyOne(codec, sub, m).sub)
  {
    NothingExposedBeforeCommit(codec, sub, m);
    FragmentHeld(codec, ms, sub, m);
    UnexposedTells(codec, origin, ms, sub, ApplyOne(codec, sub, m).sub, m);
  }

  lemma FragmentHeld(codec: Codec, ms: seq<ReplayMessage>, sub: Sub, m: ReplayMessage)
    requires sub.recovery.Some? ==> HoldsFragments(sub.recovery.value, ms) && AssemblyInOrder(sub.recovery.value)
    requires m.envelope.payload.Recovery() && !m.envelope.payload.Commit?
    requires ApplyOne(codec, sub, m).done.Ok?
    ensures HoldsFragments(ApplyOne(codec, sub, m).sub.recovery.value, ms + [m])
  {
    match m.envelope.payload {
      case Start(man) =>
        var all := ms + [m];
        assert all[|all|..] == [];
      case Chunk(_) => ChunkHeld(codec, ms, sub, m);
      case CatchUp(_) => CatchUpHeld(codec, ms, sub, m);
    }
  }

  lemma ChunkHeld(codec: Codec, ms: seq<ReplayMessage>, sub: Sub, m: ReplayMessage)
    requires sub.recovery.Some? && HoldsFragments(sub.recovery.value, ms) && AssemblyInOrder(sub.recovery.value)
    requires m.envelope.payload.Chunk? && ApplyChunk(codec, sub, m.entry, m.envelope.payload.chunk).done.Ok?
    ensures HoldsFragments(ApplyChunk(codec, sub, m.entry, m.envelope.payload.chunk).sub.recovery.value, ms + [m])
  {
    var chunk := m.envelope.payload.chunk;
    FragmentsGrow(ms, m);
    ValuesExtend(sub.recovery.value.chunks, chunk.chunkIndex, chunk);
  }

  lemma CatchUpHeld(codec: Codec, ms: seq<ReplayMessage>, sub: Sub, m: ReplayMessage)
    requires sub.recovery.Some? && HoldsFragments(sub.recovery.value, ms) && AssemblyInOrder(sub.recovery.value)
    requires m.envelope.payload.CatchUp? && ApplyCatchUp(codec, sub, m.envelope.payload.catchUp).done.Ok?
    ensures HoldsFragments(ApplyCatchUp(codec, sub, m.envelope.payload.catchUp).sub.recovery.value, ms + [m])
  {
    var catchUp := m.envelope.payload.catchUp;
    FragmentsGrow(ms, m);
    ValuesExtend(sub.recovery.value.catchUps, catchUp.blockIndex, catchUp);
  }

  lemma CommitTells(codec: Codec, origin: Sub, ms: seq<ReplayMessage>, sub: Sub, c: Checkpoint, next: u64, m: ReplayMessage,
                    i: nat)
    requires Tells(codec, origin, ms, sub) && Inv(sub, c, next) && Follows(c, m) && |sub.processors| > 0
    requires m.envelope.payload.Commit? && ApplyOne(codec, sub, m).done.Ok?
    requires i < |sub.processors| == |ApplyOne(codec, sub, m).sub.processors|
    ensures TellsAt(codec, origin, ms + [m], ApplyOne(codec, sub, m).sub, i)
  {
    var seqNo, commit := m.entry.messageSeq, m.envelope.payload.commit;
    var p, live := origin.processors[i].processor, sub.processors[i].processor;
    assert TellsAt(codec, origin, ms, sub, i);
    CommitStep(codec, sub, c, next, m);
    ReadyCommitSucceeds(codec, sub, c, next, m);
    var a := sub.recovery.value;
    assert commit.backends == a.manifest.backends;
    CandidatesPointwise(codec, sub, a.manifest, CheckCommit(codec, sub, a, seqNo, commit).value,
                        ValuesInOrder(a.catchUps));
    if Named(sub.processors[i], a.manifest) {
      ReferenceAfterCommit(codec, origin.chainId, p, ms, m);
      assert RecoveryCopy(p, a.manifest.targetStateVersion) == RecoveryCopy(live, a.manifest.targetStateVersion);
    } else {
      ReferenceAfterOther(codec, origin.chainId, p, ms, m);
    }
  }

  lemma StepTells(codec: Codec, origin: Sub, ms: seq<ReplayMessage>, sub: Sub, c: Checkpoint, next: u64, m: ReplayMessage)
    requires Tells(codec, origin, ms, sub) && Inv(sub, c, next) && Follows(c, m) && |sub.processors| > 0
    requires ApplyOne(codec, sub, m).done.Ok?
    ensures Tells(codec, origin, ms + [m], After(codec, sub, m))
  {
    var s := ApplyOne(codec, sub, m).sub;
    if m.envelope.payload.Recovery() && !m.envelope.payload.Commit? {
      FragmentTells(codec, origin, ms, sub, m);
    } else if m.envelope.payload.Commit? {
      CommitStep(codec, sub, c, next, m);
      ReadyCommitSucceeds(codec, sub, c, next, m);
      forall i | 0 <= i < |sub.processors| ensures TellsAt(codec, origin, ms + [m], s, i) {
        CommitTells(codec, origin, ms, sub, c, next, m, i);
      }
    } else {
      OrdinaryStep(codec, sub, c, next, m);
      forall i | 0 <= i < |sub.processors| ensures TellsAt(codec, origin, ms + [m], s, i) {
        OrdinaryTells(codec, origin, ms, sub, c, next, m, i);
      }
    }
    forall i | 0 <= i < |sub.processors| ensures TellsAt(codec, origin, ms + [m], After(codec, sub, m), i) {
      assert TellsAt(codec, origin, ms + [m], s, i);
    }
  }

  /** A bootstrapped subscription: every processor Live and aligned at one boundary. */
  ghost predicate Bootstrapped(sub: Sub, c: Checkpoint) {
    && |sub.processors| > 0
    && sub.recovery.None?
    && c == NewCheckpoint(sub.boundary, sub.chainId)
    && sub.boundary.exclusiveSeq < U64_MAX
    && Inv(sub, c, sub.boundary.exclusiveSeq + 1)
  }

  /** The run so far is `ms`, and the subscription stands between two messages. */
  ghost predicate Reached(codec: Codec, origin: Sub, ms: seq<ReplayMessage>, sub: Sub, c: Checkpoint) {
    |sub.processors| > 0 && Tells(codec, origin, ms, sub) && exists next: u64 :: Inv(sub, c, next)
  }

  lemma StepReaches(codec: Codec, origin: Sub, ms: seq<ReplayMessage>, sub: Sub, c: Checkpoint, m: ReplayMessage)
    requires Reached(codec, origin, ms, sub, c) && Follows(c, m)
    requires ApplyOne(codec, sub, m).done.Ok?
    ensures Reached(codec, origin, ms + [m], After(codec, sub, m), m.checkpointAfter)
  {
    var next: u64 :| Inv(sub, c, next);
    StepKeepsInv(codec, sub, c, next, m);
    StepTells(codec, origin, ms, sub, c, next, m);
    assert Inv(After(codec, sub, m), m.checkpointAfter, NextAfter(sub, m, next));
  }

  lemma BatchReaches(codec: Codec, origin: Sub, ms: seq<ReplayMessage>, sub: Sub, c: Checkpoint,
                     items: seq<ReplayMessage>)
    requires Reached(codec, origin, ms, sub, c) && Contiguous(c, items)
    requires ApplyBatch(codec, sub, c, items).done.Ok?
    ensures Reached(codec, origin, ms + items, ApplyBatch(codec, sub, c, items).sub, CheckpointAfter(c, items))
    ensures ApplyBatch(codec, sub, c, items).checkpoint == CheckpointAfter(c, items)
  {
    var inv := (run, s, at) => Reached(codec, origin, run, s, at);
    assert Kept(StepOf(codec), inv) by {
      forall run, s, at, m ensures KeptAt(StepOf(codec), inv, run, s, at, m) {
        if inv(run, s, at) && Follows(at, m) && ApplyOne(codec, s, m).done.Ok? {
          StepReaches(codec, origin, run, s, at, m);
        }
      }
    }
    BatchKeeps(StepOf(codec), inv, ms, sub, c, items);
  }

  lemma BootstrapTells(codec: Codec, sub: Sub)
    requires sub.recovery.None?
    ensures Tells(codec, sub, [], sub)
  {
    forall i | 0 <= i < |sub.processors| ensures TellsAt(codec, sub, [], sub, i) {
    }
  }

  /**
   The run theorem. From a bootstrapped subscription, any contiguous sequence of messages
   that applies without failure leaves every backend with exactly the reference content of
   that sequence: superseded and uncommitted recoveries leave no trace, and every ordinary
   delta after the last replacement counts once.
   */
  lemma RunEqualsReference(codec: Codec, sub: Sub, c: Checkpoint, items: seq<ReplayMessage>)
    requires Bootstrapped(sub, c) && Contiguous(c, items)
    requires ApplyBatch(codec, sub, c, items).done.Ok?
    ensures var r := ApplyBatch(codec, sub, c, items).sub;
      && |r.processors| == |sub.processors|
      && forall i :: 0 <= i < |sub.processors| ==>
           Some(r.processors[i].processor.store.content)
           == Reference(codec, sub.chainId, sub.processors[i].processor, items)
  {
    BootstrapTells(codec, sub);
    assert Inv(sub, c, sub.boundary.exclusiveSeq + 1);
    BatchReaches(codec, sub, [], sub, c, items);
    assert [] + items == items;
    var r := ApplyBatch(codec, sub, c, items).sub;
    forall i | 0 <= i < |sub.processors|
      ensures Some(r.processors[i].processor.store.content)
           == Reference(codec, sub.chainId, sub.processors[i].processor, items)
    {
      assert TellsAt(codec, sub, items, r, i);
    }
  }
}
