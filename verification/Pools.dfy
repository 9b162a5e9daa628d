/**
 What the wire says about one pool: the meaning of updates and snapshots for a single pool id,
 read straight off the partitions.
 */
module Pools {
  import opened Wrappers
  import opened Wire
  import opened Contracts
  import opened Replay
  import opened StateStores
  import opened Subscription

  function Lookup<T>(m: map<string, T>, id: string): Option<T> {
    if id in m then Some(m[id]) else None
  }

  // Lists of entries: the last one for an id counts.

  predicate LastEntry(entries: seq<StateEntry>, i: nat)
    requires i < |entries|
  {
    forall j :: i < j < |entries| ==> entries[j].componentId != entries[i].componentId
  }

  predicate LastDelta(deltas: seq<StateDelta>, i: nat)
    requires i < |deltas|
  {
    forall j :: i < j < |deltas| ==> deltas[j].componentId != deltas[i].componentId
  }

  function EntryFor(entries: seq<StateEntry>, id: string): (e: Option<StateEntry>)
    ensures e.None? <==> forall i :: 0 <= i < |entries| ==> entries[i].componentId != id
    ensures e.Some? ==> e.value.componentId == id
    ensures forall i :: 0 <= i < |entries| && entries[i].componentId == id && LastEntry(entries, i) ==> e == Some(entries[i])
    decreases |entries|
  {
    if entries == [] then None
    else
      var rest := EntryFor(entries[1..], id);
      assert forall i :: 0 < i < |entries| ==> entries[1..][i - 1] == entries[i];
      assert forall i :: 0 < i < |entries| ==> (LastEntry(entries, i) ==> LastEntry(entries[1..], i - 1));
      if rest.Some? then rest else if entries[0].componentId == id then Some(entries[0]) else None
  }

  function DeltaFor(deltas: seq<StateDelta>, id: string): (d: Option<StateDelta>)
    ensures d.None? <==> forall i :: 0 <= i < |deltas| ==> deltas[i].componentId != id
    ensures d.Some? ==> d.value.componentId == id
    ensures forall i :: 0 <= i < |deltas| && deltas[i].componentId == id && LastDelta(deltas, i) ==> d == Some(deltas[i])
    decreases |deltas|
  {
    if deltas == [] then None
    else
      var rest := DeltaFor(deltas[1..], id);
      assert forall i :: 0 < i < |deltas| ==> deltas[1..][i - 1] == deltas[i];
      assert forall i :: 0 < i < |deltas| ==> (LastDelta(deltas, i) ==> LastDelta(deltas[1..], i - 1));
      if rest.Some? then rest else if deltas[0].componentId == id then Some(deltas[0]) else None
  }

  predicate Removes(removed: seq<RemovedPair>, id: string) {
    exists i :: 0 <= i < |removed| && removed[i].componentId == id
  }

  // One partition, one id.

  /** What one decoded partition says about a pool id. */
  datatype Mention = Mention(removed: bool, component: Option<Component>, state: Option<string>)

  const SILENT := Mention(false, None, None)

  function MentionOf(part: UpdatePartition, id: string): Mention {
    var entry, delta := EntryFor(part.newPairs, id), DeltaFor(part.updatedStates, id);
    Mention(Removes(part.removedPairs, id),
            if entry.Some? then Some(entry.value.component) else None,
            if delta.Some? then Some(delta.value.state) else if entry.Some? then Some(entry.value.state) else None)
  }

  function SnapshotMention(part: SnapshotPartition, id: string): Mention {
    var entry := EntryFor(part.states, id);
    if entry.None? then SILENT else Mention(false, Some(entry.value.component), Some(entry.value.state))
  }

  function DecodedMention(u: StoreUpdate, id: string): Mention {
    Mention(id in u.removedPairs, Lookup(u.newPairs, id), Lookup(u.states, id))
  }

  /** A removal wins; a known component with a state enters; any other state replaces a held one. */
  function PoolAfter(p: Protocols, pool: Option<Pool>, m: Mention): Option<Pool> {
    if m.removed then None
    else if m.component.Some? && m.state.Some? && p.componentKind(m.component.value).Some?
    then Some(Pool(m.state.value, m.component.value))
    else if pool.Some? && m.state.Some? then Some(Pool(m.state.value, pool.value.component))
    else pool
  }

  // The store's maps say the same.

  lemma {:induction false} EntryMaps(entries: seq<StateEntry>, id: string)
    ensures var e := EntryFor(entries, id);
      && Lookup(EntryStates(entries), id) == (if e.Some? then Some(e.value.state) else None)
      && Lookup(EntryComponents(entries), id) == (if e.Some? then Some(e.value.component) else None)
    decreases |entries|
  {
    if entries != [] {
      var n := |entries| - 1;
      var init := entries[..n];
      EntryMaps(init, id);
      EntryLast(entries, id);
    }
  }

  /** The last of all entries decides for its own id and for no other. */
  lemma {:induction false} EntryLast(entries: seq<StateEntry>, id: string)
    requires entries != []
    ensures EntryFor(entries, id) ==
      if entries[|entries| - 1].componentId == id then Some(entries[|entries| - 1])
      else EntryFor(entries[..|entries| - 1], id)
    decreases |entries|
  {
    var n := |entries| - 1;
    if n > 0 {
      EntryLast(entries[1..], id);
      assert entries[1..][..n - 1] == entries[..n][1..];
    }
  }

  lemma {:induction false} DeltaLast(deltas: seq<StateDelta>, id: string)
    requires deltas != []
    ensures DeltaFor(deltas, id) ==
      if deltas[|deltas| - 1].componentId == id then Some(deltas[|deltas| - 1])
      else DeltaFor(deltas[..|deltas| - 1], id)
    decreases |deltas|
  {
    var n := |deltas| - 1;
    if n > 0 {
      DeltaLast(deltas[1..], id);
      assert deltas[1..][..n - 1] == deltas[..n][1..];
    }
  }

  lemma {:induction false} DeltaMap(deltas: seq<StateDelta>, id: string)
    ensures var d := DeltaFor(deltas, id);
      Lookup(DeltaStates(deltas), id) == (if d.Some? then Some(d.value.state) else None)
    decreases |deltas|
  {
    if deltas != [] {
      DeltaMap(deltas[..|deltas| - 1], id);
      DeltaLast(deltas, id);
    }
  }

  lemma {:induction false} RemovalMap(removed: seq<RemovedPair>, id: string)
    ensures id in RemovedComponents(removed) <==> Removes(removed, id)
    decreases |removed|
  {
    if removed != [] {
      var init := removed[..|removed| - 1];
      RemovalMap(init, id);
      if i :| 0 <= i < |removed| && removed[i].componentId == id {
        assert i < |init| ==> init[i] == removed[i];
      }
      if i :| 0 <= i < |init| && init[i].componentId == id {
        assert removed[i] == init[i];
      }
    }
  }

  lemma LiveUpdateMentions(part: UpdatePartition, id: string)
    ensures DecodedMention(LiveUpdate(part), id) == MentionOf(part, id)
  {
    EntryMaps(part.newPairs, id);
    DeltaMap(part.updatedStates, id);
    RemovalMap(part.removedPairs, id);
  }

  lemma SnapshotUpdateMentions(part: SnapshotPartition, id: string)
    ensures DecodedMention(SnapshotUpdate(part), id) == SnapshotMention(part, id)
  {
    EntryMaps(part.states, id);
  }

  lemma UpdatedPool(p: Protocols, pools: map<string, Pool>, u: StoreUpdate, id: string)
    ensures Lookup(UpdatePools(p, pools, u), id) == PoolAfter(p, Lookup(pools, id), DecodedMention(u, id))
  {
  }
}
