/** Applying a batch of replayed messages, over any meaning of one message. */
module Batches {
  import opened Wrappers
  import opened Replay
  import opened Subscription

  type Stepper = (Sub, ReplayMessage) -> Applied

  datatype Batched = Batched(sub: Sub, checkpoint: Checkpoint, done: Done)

  /** A whole batch, message by message; a failure stops it at the last applied message. */
  function BatchOf(step: Stepper, sub: Sub, c: Checkpoint, items: seq<ReplayMessage>): Batched
    decreases |items|
  {
    if items == [] then Batched(sub, c, DONE)
    else
      var one := step(sub, items[0]);
      if one.done.Err? then Batched(one.sub, c, one.done)
      else BatchOf(step, Marked(one.sub, items[0]), items[0].checkpointAfter, items[1..])
  }

  function StepOf(codec: Codec): Stepper {
    (s, m) => ApplyOne(codec, s, m)
  }

  /** `apply_replay_batch`. */
  function ApplyBatch(codec: Codec, sub: Sub, c: Checkpoint, items: seq<ReplayMessage>): Batched {
    BatchOf(StepOf(codec), sub, c, items)
  }

  /** How many messages of the batch are applied. */
  function AppliedCount(step: Stepper, sub: Sub, items: seq<ReplayMessage>): (k: nat)
    ensures k <= |items|
    decreases |items|
  {
    if items == [] || step(sub, items[0]).done.Err? then 0
    else 1 + AppliedCount(step, Marked(step(sub, items[0]).sub, items[0]), items[1..])
  }

  /** Splitting a batch anywhere changes nothing. */
  lemma {:induction false} BatchBoundariesDoNotMatter(step: Stepper, sub: Sub, c: Checkpoint, a: seq<ReplayMessage>,
                                                      b: seq<ReplayMessage>)
    ensures BatchOf(step, sub, c, a + b) ==
      var first := BatchOf(step, sub, c, a);
      if first.done.Err? then first else BatchOf(step, first.sub, first.checkpoint, b)
    decreases |a|
  {
    if a == [] {
      assert a + b == b;
    } else {
      assert (a + b)[1..] == a[1..] + b;
      var one := step(sub, a[0]);
      if one.done.Ok? {
        BatchBoundariesDoNotMatter(step, Marked(one.sub, a[0]), a[0].checkpointAfter, a[1..], b);
      }
    }
  }

  /** A failed message leaves the checkpoint at the last one applied. */
  lemma {:induction false} FailureKeepsCheckpoint(step: Stepper, sub: Sub, c: Checkpoint, items: seq<ReplayMessage>)
    ensures var r, k := BatchOf(step, sub, c, items), AppliedCount(step, sub, items);
      && r.checkpoint == CheckpointAfter(c, items[..k])
      && BatchOf(step, sub, c, items[..k]).done.Ok?
      && (r.done.Ok? <==> k == |items|)
      && (r.done.Err? ==> step(BatchOf(step, sub, c, items[..k]).sub, items[k]).done == r.done)
    decreases |items|
  {
    var k := AppliedCount(step, sub, items);
    if items == [] || step(sub, items[0]).done.Err? {
      assert items[..0] == [];
    } else {
      var m := items[0];
      FailureKeepsCheckpoint(step, Marked(step(sub, m).sub, m), m.checkpointAfter, items[1..]);
      assert items[..k][1..] == items[1..][..k - 1];
      assert CheckpointAfter(c, items[..k]) == CheckpointAfter(m.checkpointAfter, items[1..][..k - 1]);
    }
  }

  // What each message keeps is kept by every batch.

  /** `m` is the message the replay client hands on after `c`. */
  ghost predicate Follows(c: Checkpoint, m: ReplayMessage) {
    Contiguous(c, [m])
  }

  lemma ContiguousSplits(c: Checkpoint, items: seq<ReplayMessage>)
    requires Contiguous(c, items) && items != []
    ensures Follows(c, items[0])
    ensures Contiguous(items[0].checkpointAfter, items[1..])
    ensures CheckpointAfter(c, items) == CheckpointAfter(items[0].checkpointAfter, items[1..])
  {
    assert forall i :: 0 <= i < |items| - 1 ==> items[1..][i] == items[i + 1];
  }

  /** A relation between the run so far and the state. */
  type Relation = (seq<ReplayMessage>, Sub, Checkpoint) -> bool

  /** Every successful step keeps the relation. */
  ghost predicate Kept(step: Stepper, inv: Relation) {
    forall ms, sub, c, m :: KeptAt(step, inv, ms, sub, c, m)
  }

  ghost predicate KeptAt(step: Stepper, inv: Relation, ms: seq<ReplayMessage>, sub: Sub, c: Checkpoint, m: ReplayMessage) {
    inv(ms, sub, c) && Follows(c, m) && step(sub, m).done.Ok? ==>
      inv(ms + [m], Marked(step(sub, m).sub, m), m.checkpointAfter)
  }

  lemma {:induction false} BatchKeeps(step: Stepper, inv: Relation, ms: seq<ReplayMessage>, sub: Sub, c: Checkpoint,
                                      items: seq<ReplayMessage>)
    requires Kept(step, inv) && inv(ms, sub, c) && Contiguous(c, items)
    requires BatchOf(step, sub, c, items).done.Ok?
    ensures inv(ms + items, BatchOf(step, sub, c, items).sub, CheckpointAfter(c, items))
    ensures BatchOf(step, sub, c, items).checkpoint == CheckpointAfter(c, items)
    decreases |items|
  {
    if items == [] {
      assert ms + items == ms;
    } else {
      var m := items[0];
      ContiguousSplits(c, items);
      assert KeptAt(step, inv, ms, sub, c, m);
      BatchKeeps(step, inv, ms + [m], Marked(step(sub, m).sub, m), m.checkpointAfter, items[1..]);
      assert (ms + [m]) + items[1..] == ms + items;
    }
  }
}
