/** Splitting one upstream update into per-backend partitions. */
module UpdateSplit {
  import opened Wrappers
  import opened Wire
  import opened Contracts
  import opened Sorting
  import opened Strings
  import opened Partitions

  datatype TychoUpdate = TychoUpdate(
    blockNumber: u64,
    states: map<string, string>,
    newPairs: map<string, Component>,
    removedPairs: map<string, Component>,
    syncStates: map<string, SynchronizerState>)

  datatype Builder = Builder(
    newPairs: seq<StateEntry>,
    updatedStates: seq<StateDelta>,
    removedPairs: seq<RemovedPair>,
    syncStatuses: map<string, SyncStatus>)
  {
    predicate IsEmpty() {
      newPairs == [] && updatedStates == [] && removedPairs == [] && syncStatuses == map[]
    }
  }

  const EMPTY := Builder([], [], [], map[])

  type Builders = map<Backend, Builder>

  /** `entry(backend).or_default()`. */
  function At(builders: Builders, b: Backend): Builder {
    if b in builders then builders[b] else EMPTY
  }

  // One entry filed under a backend, whose builder starts empty.

  function PutNew(builders: Builders, b: Backend, entry: StateEntry): Builders {
    builders[b := At(builders, b).(newPairs := At(builders, b).newPairs + [entry])]
  }

  function PutUpdated(builders: Builders, b: Backend, delta: StateDelta): Builders {
    builders[b := At(builders, b).(updatedStates := At(builders, b).updatedStates + [delta])]
  }

  function PutRemoved(builders: Builders, b: Backend, removal: RemovedPair): Builders {
    builders[b := At(builders, b).(removedPairs := At(builders, b).removedPairs + [removal])]
  }

  function PutStatus(builders: Builders, b: Backend, key: string, status: SyncStatus): Builders {
    builders[b := At(builders, b).(syncStatuses := At(builders, b).syncStatuses[key := status])]
  }

  function EntryKey(e: StateEntry): string { e.componentId }
  function DeltaKey(d: StateDelta): string { d.componentId }
  function RemovalKey(r: RemovedPair): string { r.componentId }

  // Which backend owns each id.

  ghost function NewOwner(p: Protocols, u: TychoUpdate): map<string, Backend> {
    map id | id in u.newPairs && id in u.states && p.ComponentBackend(u.newPairs[id]).Some?
      :: p.ComponentBackend(u.newPairs[id]).value
  }

  ghost function UpdatedOwner(u: TychoUpdate, known: map<string, Backend>): map<string, Backend> {
    map id | id in u.states && id !in u.newPairs && id in known :: known[id]
  }

  ghost function RemovedOwner(p: Protocols, u: TychoUpdate): map<string, Backend> {
    map id | id in u.removedPairs && p.ComponentBackend(u.removedPairs[id]).Some?
      :: p.ComponentBackend(u.removedPairs[id]).value
  }

  // The entries made from a list of ids.

  ghost function EntriesOf(u: TychoUpdate, ids: seq<string>): (es: seq<StateEntry>)
    requires forall i :: 0 <= i < |ids| ==> ids[i] in u.newPairs && ids[i] in u.states
    ensures |es| == |ids|
    ensures forall i :: 0 <= i < |ids| ==> es[i] == StateEntry(ids[i], u.newPairs[ids[i]], u.states[ids[i]])
  {
    seq(|ids|, i requires 0 <= i < |ids| => StateEntry(ids[i], u.newPairs[ids[i]], u.states[ids[i]]))
  }

  ghost function DeltasOf(u: TychoUpdate, b: Backend, ids: seq<string>): (ds: seq<StateDelta>)
    requires forall i :: 0 <= i < |ids| ==> ids[i] in u.states
    ensures |ds| == |ids|
    ensures forall i :: 0 <= i < |ids| ==> ds[i] == StateDelta(ids[i], b, u.states[ids[i]])
  {
    seq(|ids|, i requires 0 <= i < |ids| => StateDelta(ids[i], b, u.states[ids[i]]))
  }

  ghost function RemovalsOf(u: TychoUpdate, ids: seq<string>): (rs: seq<RemovedPair>)
    requires forall i :: 0 <= i < |ids| ==> ids[i] in u.removedPairs
    ensures |rs| == |ids|
    ensures forall i :: 0 <= i < |ids| ==> rs[i] == RemovedPair(ids[i], u.removedPairs[ids[i]])
  {
    seq(|ids|, i requires 0 <= i < |ids| => RemovedPair(ids[i], u.removedPairs[ids[i]]))
  }

  // The specification: what each backend's partition holds, whatever the order of iteration.

  ghost function PartFor(p: Protocols, u: TychoUpdate, known: map<string, Backend>, b: Backend): UpdatePartition {
    UpdatePartition(
      b,
      u.blockNumber,
      [],
      EntriesOf(u, SortedKeys(Owned(NewOwner(p, u), [b]))),
      DeltasOf(u, b, SortedKeys(Owned(UpdatedOwner(u, known), [b]))),
      RemovalsOf(u, SortedKeys(Owned(RemovedOwner(p, u), [b]))),
      StatusesFor(p, u.syncStates, b, u.syncStates.Keys))
  }

  ghost function Parts(p: Protocols, u: TychoUpdate, known: map<string, Backend>): Backend -> UpdatePartition {
    b => PartFor(p, u, known, b)
  }

  ghost function Split(p: Protocols, u: TychoUpdate, known: map<string, Backend>): seq<UpdatePartition> {
    Collect(Parts(p, u, known), BACKENDS)
  }

  ghost predicate NewPairsKnown(p: Protocols, u: TychoUpdate, ids: set<string>)
    requires ids <= u.newPairs.Keys
  {
    forall id :: id in ids ==> id in u.states && p.ComponentBackend(u.newPairs[id]).Some?
  }

  ghost predicate StatesKnown(u: TychoUpdate, known: map<string, Backend>, ids: set<string>) {
    forall id :: id in ids ==> id in u.newPairs || id in known
  }

  ghost predicate RemovedKnown(p: Protocols, u: TychoUpdate, ids: set<string>)
    requires ids <= u.removedPairs.Keys
  {
    forall id :: id in ids ==> p.ComponentBackend(u.removedPairs[id]).Some?
  }

  ghost predicate SyncKnown(p: Protocols, keys: set<string>) {
    forall key :: key in keys ==> p.SyncBackend(key).Some?
  }

  /** When the split succeeds, in terms of the upstream update alone. */
  ghost predicate Splittable(p: Protocols, u: TychoUpdate, known: map<string, Backend>) {
    && NewPairsKnown(p, u, u.newPairs.Keys)
    && StatesKnown(u, known, u.states.Keys)
    && RemovedKnown(p, u, u.removedPairs.Keys)
    && SyncKnown(p, u.syncStates.Keys)
    && (u.states != map[] || u.removedPairs != map[] || u.syncStates != map[])
  }

  // The four loops. Each one's effect on a backend's builder after visiting a list of keys.

  ghost function WithNew(p: Protocols, u: TychoUpdate, held: Builder, b: Backend, keys: seq<string>): Builder {
    held.(newPairs := held.newPairs + EntriesOf(u, Visited(keys, Owned(NewOwner(p, u), [b]))))
  }

  ghost function WithUpdated(u: TychoUpdate, known: map<string, Backend>, held: Builder, b: Backend,
                             keys: seq<string>): Builder
  {
    held.(updatedStates := held.updatedStates + DeltasOf(u, b, Visited(keys, Owned(UpdatedOwner(u, known), [b]))))
  }

  ghost function WithRemoved(p: Protocols, u: TychoUpdate, held: Builder, b: Backend, keys: seq<string>): Builder {
    held.(removedPairs := held.removedPairs + RemovalsOf(u, Visited(keys, Owned(RemovedOwner(p, u), [b]))))
  }

  ghost function WithStatuses(p: Protocols, u: TychoUpdate, held: Builder, b: Backend, keys: set<string>): Builder {
    held.(syncStatuses := held.syncStatuses + StatusesFor(p, u.syncStates, b, keys))
  }

  lemma NewStep(p: Protocols, u: TychoUpdate, held: Builder, b: Backend, keys: seq<string>, id: string)
    requires id in u.newPairs && id in u.states && p.ComponentBackend(u.newPairs[id]).Some?
    ensures var before := WithNew(p, u, held, b, keys);
      WithNew(p, u, held, b, keys + [id]) ==
      if p.ComponentBackend(u.newPairs[id]) == Some(b)
      then before.(newPairs := before.newPairs + [StateEntry(id, u.newPairs[id], u.states[id])])
      else before
  {
    assert (keys + [id])[..|keys|] == keys;
    assert id in Owned(NewOwner(p, u), [b]) <==> p.ComponentBackend(u.newPairs[id]) == Some(b);
  }

  lemma UpdatedStep(u: TychoUpdate, known: map<string, Backend>, held: Builder, b: Backend, keys: seq<string>,
                    id: string)
    requires id in u.states && (id in u.newPairs || id in known)
    ensures var before := WithUpdated(u, known, held, b, keys);
      WithUpdated(u, known, held, b, keys + [id]) ==
      if id !in u.newPairs && known[id] == b
      then before.(updatedStates := before.updatedStates + [StateDelta(id, b, u.states[id])])
      else before
  {
    assert (keys + [id])[..|keys|] == keys;
    assert id in Owned(UpdatedOwner(u, known), [b]) <==> id !in u.newPairs && known[id] == b;
  }

  lemma RemovedStep(p: Protocols, u: TychoUpdate, held: Builder, b: Backend, keys: seq<string>, id: string)
    requires id in u.removedPairs && p.ComponentBackend(u.removedPairs[id]).Some?
    ensures var before := WithRemoved(p, u, held, b, keys);
      WithRemoved(p, u, held, b, keys + [id]) ==
      if p.ComponentBackend(u.removedPairs[id]) == Some(b)
      then before.(removedPairs := before.removedPairs + [RemovedPair(id, u.removedPairs[id])])
      else before
  {
    assert (keys + [id])[..|keys|] == keys;
    assert id in Owned(RemovedOwner(p, u), [b]) <==> p.ComponentBackend(u.removedPairs[id]) == Some(b);
  }

  lemma StatusStep(p: Protocols, u: TychoUpdate, held: Builder, b: Backend, keys: set<string>, key: string)
    requires key in u.syncStates && p.SyncBackend(key).Some?
    ensures var before := WithStatuses(p, u, held, b, keys);
      WithStatuses(p, u, held, b, keys + {key}) ==
      if p.SyncBackend(key) == Some(b)
      then before.(syncStatuses := before.syncStatuses[key := StatusOf(u.syncStates[key])])
      else before
  {
    var one := StatusesFor(p, u.syncStates, b, keys);
    var two := StatusesFor(p, u.syncStates, b, keys + {key});
    if p.SyncBackend(key) == Some(b) {
      assert two == one[key := StatusOf(u.syncStates[key])];
    } else {
      assert two == one;
    }
  }

  // One more key filed for every backend at once.

  ghost predicate NewFiled(p: Protocols, u: TychoUpdate, before: Builders, now: Builders, keys: seq<string>) {
    forall b :: At(now, b) == WithNew(p, u, At(before, b), b, keys)
  }

  ghost predicate StatesFiled(u: TychoUpdate, known: map<string, Backend>, before: Builders, now: Builders,
                              keys: seq<string>)
  {
    forall b :: At(now, b) == WithUpdated(u, known, At(before, b), b, keys)
  }

  ghost predicate RemovalsFiled(p: Protocols, u: TychoUpdate, before: Builders, now: Builders, keys: seq<string>) {
    forall b :: At(now, b) == WithRemoved(p, u, At(before, b), b, keys)
  }

  ghost predicate StatusesFiled(p: Protocols, u: TychoUpdate, before: Builders, now: Builders, keys: set<string>) {
    forall b :: At(now, b) == WithStatuses(p, u, At(before, b), b, keys)
  }

  ghost predicate NewKnown(p: Protocols, u: TychoUpdate, id: string) {
    id in u.newPairs && id in u.states && p.ComponentBackend(u.newPairs[id]).Some?
  }

  ghost predicate RemovalKnown(p: Protocols, u: TychoUpdate, id: string) {
    id in u.removedPairs && p.ComponentBackend(u.removedPairs[id]).Some?
  }

  ghost predicate EachNewKnown(p: Protocols, u: TychoUpdate, ids: seq<string>) {
    forall i :: 0 <= i < |ids| ==> NewKnown(p, u, ids[i])
  }

  ghost predicate EachStateKnown(u: TychoUpdate, known: map<string, Backend>, ids: seq<string>) {
    forall i :: 0 <= i < |ids| ==> ids[i] in u.newPairs || ids[i] in known
  }

  ghost predicate EachRemovalKnown(p: Protocols, u: TychoUpdate, ids: seq<string>) {
    forall i :: 0 <= i < |ids| ==> RemovalKnown(p, u, ids[i])
  }

  ghost predicate EachSyncKnown(p: Protocols, keys: seq<string>) {
    forall i :: 0 <= i < |keys| ==> p.SyncBackend(keys[i]).Some?
  }

  /** Before any key is visited nothing is filed. */
  lemma NothingFiled(p: Protocols, u: TychoUpdate, known: map<string, Backend>, before: Builders, keys: seq<string>)
    ensures NewFiled(p, u, before, before, keys[..0]) && EachNewKnown(p, u, keys[..0])
    ensures StatesFiled(u, known, before, before, keys[..0]) && EachStateKnown(u, known, keys[..0])
    ensures RemovalsFiled(p, u, before, before, keys[..0]) && EachRemovalKnown(p, u, keys[..0])
    ensures StatusesFiled(p, u, before, before, {}) && EachSyncKnown(p, keys[..0])
  {
    assert keys[..0] == [];
  }

  lemma NewPairFiled(p: Protocols, u: TychoUpdate, before: Builders, now: Builders, keys: seq<string>, id: string)
    requires NewFiled(p, u, before, now, keys) && NewKnown(p, u, id)
    ensures var mine := p.ComponentBackend(u.newPairs[id]).value;
      NewFiled(p, u, before, PutNew(now, mine, StateEntry(id, u.newPairs[id], u.states[id])), keys + [id])
  {
    forall b { NewStep(p, u, At(before, b), b, keys, id); }
  }

  lemma NewKnownNext(p: Protocols, u: TychoUpdate, keys: seq<string>, id: string)
    requires EachNewKnown(p, u, keys) && NewKnown(p, u, id)
    ensures EachNewKnown(p, u, keys + [id])
  {
  }

  lemma NextNewPair(p: Protocols, u: TychoUpdate, before: Builders, now: Builders, keys: seq<string>, i: nat)
    requires i < |keys| && NewFiled(p, u, before, now, keys[..i]) && EachNewKnown(p, u, keys[..i])
    requires NewKnown(p, u, keys[i])
    ensures var id := keys[i];
      var mine := p.ComponentBackend(u.newPairs[id]).value;
      NewFiled(p, u, before, PutNew(now, mine, StateEntry(id, u.newPairs[id], u.states[id])), keys[..i + 1])
    ensures EachNewKnown(p, u, keys[..i + 1])
  {
    assert keys[..i + 1] == keys[..i] + [keys[i]];
    NewPairFiled(p, u, before, now, keys[..i], keys[i]);
    NewKnownNext(p, u, keys[..i], keys[i]);
  }

  lemma StateFiled(u: TychoUpdate, known: map<string, Backend>, before: Builders, now: Builders, keys: seq<string>,
                   id: string)
    requires StatesFiled(u, known, before, now, keys)
    requires id in u.states && (id in u.newPairs || id in known)
    ensures id in u.newPairs ==> StatesFiled(u, known, before, now, keys + [id])
    ensures id !in u.newPairs ==>
      StatesFiled(u, known, before, PutUpdated(now, known[id], StateDelta(id, known[id], u.states[id])), keys + [id])
  {
    forall b { UpdatedStep(u, known, At(before, b), b, keys, id); }
  }

  lemma StateKnownNext(u: TychoUpdate, known: map<string, Backend>, keys: seq<string>, id: string)
    requires EachStateKnown(u, known, keys) && (id in u.newPairs || id in known)
    ensures EachStateKnown(u, known, keys + [id])
  {
  }

  lemma NextState(u: TychoUpdate, known: map<string, Backend>, before: Builders, now: Builders, keys: seq<string>,
                  i: nat)
    requires i < |keys| && StatesFiled(u, known, before, now, keys[..i]) && EachStateKnown(u, known, keys[..i])
    requires keys[i] in u.states && (keys[i] in u.newPairs || keys[i] in known)
    ensures var id := keys[i];
      if id in u.newPairs then StatesFiled(u, known, before, now, keys[..i + 1])
      else
        var delta := StateDelta(id, known[id], u.states[id]);
        StatesFiled(u, known, before, PutUpdated(now, known[id], delta), keys[..i + 1])
    ensures EachStateKnown(u, known, keys[..i + 1])
  {
    assert keys[..i + 1] == keys[..i] + [keys[i]];
    StateFiled(u, known, before, now, keys[..i], keys[i]);
    StateKnownNext(u, known, keys[..i], keys[i]);
  }

  lemma RemovalFiled(p: Protocols, u: TychoUpdate, before: Builders, now: Builders, keys: seq<string>, id: string)
    requires RemovalsFiled(p, u, before, now, keys) && RemovalKnown(p, u, id)
    ensures var mine := p.ComponentBackend(u.removedPairs[id]).value;
      RemovalsFiled(p, u, before, PutRemoved(now, mine, RemovedPair(id, u.removedPairs[id])), keys + [id])
  {
    forall b { RemovedStep(p, u, At(before, b), b, keys, id); }
  }

  lemma RemovalKnownNext(p: Protocols, u: TychoUpdate, keys: seq<string>, id: string)
    requires EachRemovalKnown(p, u, keys) && RemovalKnown(p, u, id)
    ensures EachRemovalKnown(p, u, keys + [id])
  {
  }

  lemma NextRemoval(p: Protocols, u: TychoUpdate, before: Builders, now: Builders, keys: seq<string>, i: nat)
    requires i < |keys| && RemovalsFiled(p, u, before, now, keys[..i]) && EachRemovalKnown(p, u, keys[..i])
    requires RemovalKnown(p, u, keys[i])
    ensures var id := keys[i];
      var mine := p.ComponentBackend(u.removedPairs[id]).value;
      RemovalsFiled(p, u, before, PutRemoved(now, mine, RemovedPair(id, u.removedPairs[id])), keys[..i + 1])
    ensures EachRemovalKnown(p, u, keys[..i + 1])
  {
    assert keys[..i + 1] == keys[..i] + [keys[i]];
    RemovalFiled(p, u, before, now, keys[..i], keys[i]);
    RemovalKnownNext(p, u, keys[..i], keys[i]);
  }

  lemma StatusFiled(p: Protocols, u: TychoUpdate, before: Builders, now: Builders, keys: set<string>, key: string)
    requires StatusesFiled(p, u, before, now, keys)
    requires key in u.syncStates && p.SyncBackend(key).Some?
    ensures var mine := p.SyncBackend(key).value;
      StatusesFiled(p, u, before, PutStatus(now, mine, key, StatusOf(u.syncStates[key])), keys + {key})
  {
    forall b { StatusStep(p, u, At(before, b), b, keys, key); }
  }

  lemma SyncKnownNext(p: Protocols, keys: seq<string>, i: nat)
    requires i < |keys| && EachSyncKnown(p, keys[..i]) && p.SyncBackend(keys[i]).Some?
    ensures EachSyncKnown(p, keys[..i + 1])
    ensures Elements(keys[..i + 1]) == Elements(keys[..i]) + {keys[i]}
  {
    ElementsNext(keys, i);
    assert keys[..i + 1] == keys[..i] + [keys[i]];
  }

  lemma EveryNewKnown(p: Protocols, u: TychoUpdate, order: seq<string>)
    requires Elements(order) == u.newPairs.Keys
    requires EachNewKnown(p, u, order)
    ensures NewPairsKnown(p, u, u.newPairs.Keys)
  {
    AllVisited(order, u.newPairs.Keys, set id | id in u.newPairs && NewKnown(p, u, id));
  }

  lemma EveryStateKnown(u: TychoUpdate, known: map<string, Backend>, order: seq<string>)
    requires Elements(order) == u.states.Keys
    requires EachStateKnown(u, known, order)
    ensures StatesKnown(u, known, u.states.Keys)
  {
    AllVisited(order, u.states.Keys, u.newPairs.Keys + known.Keys);
  }

  lemma EveryRemovedKnown(p: Protocols, u: TychoUpdate, order: seq<string>)
    requires Elements(order) == u.removedPairs.Keys
    requires EachRemovalKnown(p, u, order)
    ensures RemovedKnown(p, u, u.removedPairs.Keys)
  {
    AllVisited(order, u.removedPairs.Keys, set id | id in u.removedPairs && RemovalKnown(p, u, id));
  }

  lemma EverySyncKnown(p: Protocols, u: TychoUpdate, order: seq<string>)
    requires Elements(order) == u.syncStates.Keys
    requires EachSyncKnown(p, order)
    ensures SyncKnown(p, u.syncStates.Keys)
  {
    AllVisited(order, u.syncStates.Keys, set key | key in u.syncStates && p.SyncBackend(key).Some?);
  }

  method AddNewPairs(p: Protocols, u: TychoUpdate, order: seq<string>, before: Builders)
    returns (r: Result<Builders, ContractError>)
    requires Elements(order) == u.newPairs.Keys
    ensures r.Ok? <==> NewPairsKnown(p, u, u.newPairs.Keys)
    ensures r.Ok? ==> NewFiled(p, u, before, r.value, order)
  {
    var builders := before;
    NothingFiled(p, u, map[], before, order);
    for i := 0 to |order|
      invariant EachNewKnown(p, u, order[..i])
      invariant NewFiled(p, u, before, builders, order[..i])
    {
      VisitsKey(order, u.newPairs.Keys, i);
      var id := order[i];
      if id !in u.states {
        return Err(NewPairMissingState(id));
      }
      var backend := p.ComponentBackend(u.newPairs[id]);
      if backend.None? {
        return Err(UnknownComponentProtocol(id));
      }
      NextNewPair(p, u, before, builders, order, i);
      builders := PutNew(builders, backend.value, StateEntry(id, u.newPairs[id], u.states[id]));
    }
    assert order[..|order|] == order;
    EveryNewKnown(p, u, order);
    return Ok(builders);
  }

  method AddUpdatedStates(u: TychoUpdate, known: map<string, Backend>, order: seq<string>, before: Builders)
    returns (r: Result<Builders, ContractError>)
    requires Elements(order) == u.states.Keys
    ensures r.Ok? <==> StatesKnown(u, known, u.states.Keys)
    ensures r.Ok? ==> StatesFiled(u, known, before, r.value, order)
  {
    var builders := before;
    for i := 0 to |order|
      invariant EachStateKnown(u, known, order[..i])
      invariant StatesFiled(u, known, before, builders, order[..i])
    {
      VisitsKey(order, u.states.Keys, i);
      var id := order[i];
      if id !in u.newPairs && id !in known {
        return Err(StateBackendMissing(id));
      }
      NextState(u, known, before, builders, order, i);
      if id !in u.newPairs {
        builders := PutUpdated(builders, known[id], StateDelta(id, known[id], u.states[id]));
      }
    }
    assert order[..|order|] == order;
    EveryStateKnown(u, known, order);
    return Ok(builders);
  }

  method AddRemovedPairs(p: Protocols, u: TychoUpdate, order: seq<string>, before: Builders)
    returns (r: Result<Builders, ContractError>)
    requires Elements(order) == u.removedPairs.Keys
    ensures r.Ok? <==> RemovedKnown(p, u, u.removedPairs.Keys)
    ensures r.Ok? ==> RemovalsFiled(p, u, before, r.value, order)
  {
    var builders := before;
    NothingFiled(p, u, map[], before, order);
    for i := 0 to |order|
      invariant EachRemovalKnown(p, u, order[..i])
      invariant RemovalsFiled(p, u, before, builders, order[..i])
    {
      VisitsKey(order, u.removedPairs.Keys, i);
      var id := order[i];
      var backend := p.ComponentBackend(u.removedPairs[id]);
      if backend.None? {
        return Err(UnknownComponentProtocol(id));
      }
      NextRemoval(p, u, before, builders, order, i);
      builders := PutRemoved(builders, backend.value, RemovedPair(id, u.removedPairs[id]));
    }
    assert order[..|order|] == order;
    EveryRemovedKnown(p, u, order);
    return Ok(builders);
  }

  method AddStatuses(p: Protocols, u: TychoUpdate, order: seq<string>, before: Builders)
    returns (r: Result<Builders, ContractError>)
    requires Elements(order) == u.syncStates.Keys
    ensures r.Ok? <==> SyncKnown(p, u.syncStates.Keys)
    ensures r.Ok? ==> StatusesFiled(p, u, before, r.value, u.syncStates.Keys)
  {
    var builders := before;
    NothingFiled(p, u, map[], before, order);
    ghost var seen: set<string> := {};
    for i := 0 to |order|
      invariant EachSyncKnown(p, order[..i])
      invariant seen == Elements(order[..i])
      invariant StatusesFiled(p, u, before, builders, seen)
    {
      VisitsKey(order, u.syncStates.Keys, i);
      var key := order[i];
      var backend := p.SyncBackend(key);
      if backend.None? {
        return Err(UnknownSyncStateProtocol(key));
      }
      StatusFiled(p, u, before, builders, seen, key);
      builders := PutStatus(builders, backend.value, key, StatusOf(u.syncStates[key]));
      SyncKnownNext(p, order, i);
      seen := seen + {key};
    }
    assert order[..|order|] == order;
    EverySyncKnown(p, u, order);
    return Ok(builders);
  }

  function Finished(u: TychoUpdate, b: Backend, builder: Builder): UpdatePartition {
    UpdatePartition(
      b,
      u.blockNumber,
      [],
      SortBy(builder.newPairs, EntryKey),
      SortBy(builder.updatedStates, DeltaKey),
      SortBy(builder.removedPairs, RemovalKey),
      builder.syncStatuses)
  }

  lemma NewSorted(u: TychoUpdate, order: seq<string>, mine: set<string>)
    requires Enumerates(order, u.newPairs.Keys)
    requires mine <= u.newPairs.Keys && mine <= u.states.Keys
    ensures SortBy(EntriesOf(u, Visited(order, mine)), EntryKey) == EntriesOf(u, SortedKeys(mine))
  {
    SameIds(order, u.newPairs.Keys, mine);
    var met, sorted := EntriesOf(u, Visited(order, mine)), EntriesOf(u, SortedKeys(mine));
    forall i, j | 0 <= i < j < |met| ensures EntryKey(met[i]) != EntryKey(met[j]) {
      assert Visited(order, mine)[i] != Visited(order, mine)[j];
    }
    SortMeets(met, sorted, EntryKey);
  }

  lemma UpdatedSorted(u: TychoUpdate, b: Backend, order: seq<string>, mine: set<string>)
    requires Enumerates(order, u.states.Keys)
    requires mine <= u.states.Keys
    ensures SortBy(DeltasOf(u, b, Visited(order, mine)), DeltaKey) == DeltasOf(u, b, SortedKeys(mine))
  {
    SameIds(order, u.states.Keys, mine);
    var met, sorted := DeltasOf(u, b, Visited(order, mine)), DeltasOf(u, b, SortedKeys(mine));
    forall i, j | 0 <= i < j < |met| ensures DeltaKey(met[i]) != DeltaKey(met[j]) {
      assert Visited(order, mine)[i] != Visited(order, mine)[j];
    }
    SortMeets(met, sorted, DeltaKey);
  }

  lemma RemovedSorted(u: TychoUpdate, order: seq<string>, mine: set<string>)
    requires Enumerates(order, u.removedPairs.Keys)
    requires mine <= u.removedPairs.Keys
    ensures SortBy(RemovalsOf(u, Visited(order, mine)), RemovalKey) == RemovalsOf(u, SortedKeys(mine))
  {
    SameIds(order, u.removedPairs.Keys, mine);
    var met, sorted := RemovalsOf(u, Visited(order, mine)), RemovalsOf(u, SortedKeys(mine));
    forall i, j | 0 <= i < j < |met| ensures RemovalKey(met[i]) != RemovalKey(met[j]) {
      assert Visited(order, mine)[i] != Visited(order, mine)[j];
    }
    SortMeets(met, sorted, RemovalKey);
  }

  /** The visited ids and the ascending ids of one set are the same ids. */
  lemma SameIds(order: seq<string>, keys: set<string>, mine: set<string>)
    requires Enumerates(order, keys) && mine <= keys
    ensures var seen, sorted := Visited(order, mine), SortedKeys(mine);
      && (forall i, j :: 0 <= i < j < |seen| ==> seen[i] != seen[j])
      && Ascending(sorted)
      && (forall i :: 0 <= i < |seen| ==> seen[i] in sorted)
      && (forall i :: 0 <= i < |sorted| ==> sorted[i] in seen)
  {
    VisitedEnumerates(order, keys, mine);
    SortedKeysSorted(mine);
    var seen, sorted := Visited(order, mine), SortedKeys(mine);
    forall i | 0 <= i < |seen| ensures seen[i] in sorted {
      assert seen[i] in Elements(sorted);
    }
    forall i | 0 <= i < |sorted| ensures sorted[i] in seen {
      assert sorted[i] in Elements(seen);
    }
  }

  ghost predicate AllKnown(p: Protocols, u: TychoUpdate, known: map<string, Backend>) {
    && NewPairsKnown(p, u, u.newPairs.Keys)
    && StatesKnown(u, known, u.states.Keys)
    && RemovedKnown(p, u, u.removedPairs.Keys)
    && SyncKnown(p, u.syncStates.Keys)
  }

  /** Once everything is known, nothing of the update falls outside the partitions. */
  lemma NothingDropped(p: Protocols, u: TychoUpdate, known: map<string, Backend>)
    requires AllKnown(p, u, known)
    ensures (forall b :: PartFor(p, u, known, b).IsEmpty())
       <==> u.states == map[] && u.removedPairs == map[] && u.syncStates == map[]
  {
    if id :| id in u.states {
      if id in u.newPairs {
        var b := NewOwner(p, u)[id];
        SomeKey(Owned(NewOwner(p, u), [b]), id);
        assert !PartFor(p, u, known, b).IsEmpty();
      } else {
        SomeKey(Owned(UpdatedOwner(u, known), [known[id]]), id);
        assert !PartFor(p, u, known, known[id]).IsEmpty();
      }
    } else if id :| id in u.removedPairs {
      var b := RemovedOwner(p, u)[id];
      SomeKey(Owned(RemovedOwner(p, u), [b]), id);
      assert !PartFor(p, u, known, b).IsEmpty();
    } else if key :| key in u.syncStates {
      var b := p.SyncBackend(key).value;
      assert key in StatusesFor(p, u.syncStates, b, u.syncStates.Keys);
      assert !PartFor(p, u, known, b).IsEmpty();
    } else {
      assert u.states == map[] && u.removedPairs == map[] && u.syncStates == map[];
      forall b ensures PartFor(p, u, known, b).IsEmpty() {
        assert Owned(NewOwner(p, u), [b]) == {};
        assert Owned(UpdatedOwner(u, known), [b]) == {};
        assert Owned(RemovedOwner(p, u), [b]) == {};
        assert StatusesFor(p, u.syncStates, b, u.syncStates.Keys) == map[];
      }
    }
  }

  lemma SomeKey(keys: set<string>, id: string)
    requires id in keys
    ensures SortedKeys(keys) != []
  {
  }

  lemma PartPlaced(p: Protocols, u: TychoUpdate, known: map<string, Backend>, b: Backend)
    ensures Parts(p, u, known)(b).backend == b && WellPlaced(p, Parts(p, u, known)(b))
  {
  }

  lemma EmptyParts(p: Protocols, u: TychoUpdate, known: map<string, Backend>)
    requires AllKnown(p, u, known)
    ensures (forall b :: Parts(p, u, known)(b).IsEmpty())
       <==> u.states == map[] && u.removedPairs == map[] && u.syncStates == map[]
  {
    NothingDropped(p, u, known);
    forall b ensures Parts(p, u, known)(b) == PartFor(p, u, known, b) {}
    assert forall b :: PartFor(p, u, known, b).IsEmpty() <==> Parts(p, u, known)(b).IsEmpty();
  }

  /** The split's partitions are valid; an update with nothing in it is refused. */
  lemma SplitIsValid(p: Protocols, u: TychoUpdate, known: map<string, Backend>)
    requires AllKnown(p, u, known)
    ensures Splittable(p, u, known) ==>
      NewUpdate(p, Split(p, u, known)) == Ok(Split(p, u, known)) && ValidUpdate(p, Split(p, u, known))
    ensures !Splittable(p, u, known) ==> NewUpdate(p, Split(p, u, known)) == Err(EmptyUpdate)
    ensures Increasing(Split(p, u, known))
  {
    forall b { PartPlaced(p, u, known, b); }
    EmptyParts(p, u, known);
    CollectedIsValid(p, Parts(p, u, known));
  }

  lemma BuiltPart(p: Protocols, u: TychoUpdate, known: map<string, Backend>, b: Backend, built: Builder,
                  newOrder: seq<string>, stateOrder: seq<string>, removedOrder: seq<string>)
    requires Enumerates(newOrder, u.newPairs.Keys)
    requires Enumerates(stateOrder, u.states.Keys)
    requires Enumerates(removedOrder, u.removedPairs.Keys)
    requires built.newPairs == EntriesOf(u, Visited(newOrder, Owned(NewOwner(p, u), [b])))
    requires built.updatedStates == DeltasOf(u, b, Visited(stateOrder, Owned(UpdatedOwner(u, known), [b])))
    requires built.removedPairs == RemovalsOf(u, Visited(removedOrder, Owned(RemovedOwner(p, u), [b])))
    requires built.syncStatuses == StatusesFor(p, u.syncStates, b, u.syncStates.Keys)
    ensures Finished(u, b, built) == PartFor(p, u, known, b)
    ensures built.IsEmpty() <==> PartFor(p, u, known, b).IsEmpty()
  {
    NewSorted(u, newOrder, Owned(NewOwner(p, u), [b]));
    UpdatedSorted(u, b, stateOrder, Owned(UpdatedOwner(u, known), [b]));
    RemovedSorted(u, removedOrder, Owned(RemovedOwner(p, u), [b]));
  }

  lemma BuiltFields(p: Protocols, u: TychoUpdate, known: map<string, Backend>, b: Backend, one: Builder, two: Builder,
                    three: Builder, four: Builder, newOrder: seq<string>, stateOrder: seq<string>,
                    removedOrder: seq<string>)
    requires one == WithNew(p, u, EMPTY, b, newOrder)
    requires two == WithUpdated(u, known, one, b, stateOrder)
    requires three == WithRemoved(p, u, two, b, removedOrder)
    requires four == WithStatuses(p, u, three, b, u.syncStates.Keys)
    ensures four.newPairs == EntriesOf(u, Visited(newOrder, Owned(NewOwner(p, u), [b])))
    ensures four.updatedStates == DeltasOf(u, b, Visited(stateOrder, Owned(UpdatedOwner(u, known), [b])))
    ensures four.removedPairs == RemovalsOf(u, Visited(removedOrder, Owned(RemovedOwner(p, u), [b])))
    ensures four.syncStatuses == StatusesFor(p, u.syncStates, b, u.syncStates.Keys)
  {
  }

  ghost predicate Gathered(p: Protocols, u: TychoUpdate, known: map<string, Backend>, b: Backend, built: Builder) {
    && Finished(u, b, built) == PartFor(p, u, known, b)
    && (built.IsEmpty() <==> PartFor(p, u, known, b).IsEmpty())
  }

  method Gather(p: Protocols, u: TychoUpdate, known: map<string, Backend>, newOrder: seq<string>,
                stateOrder: seq<string>, removedOrder: seq<string>, syncOrder: seq<string>)
    returns (r: Result<Builders, ContractError>)
    requires Enumerates(newOrder, u.newPairs.Keys)
    requires Enumerates(stateOrder, u.states.Keys)
    requires Enumerates(removedOrder, u.removedPairs.Keys)
    requires Enumerates(syncOrder, u.syncStates.Keys)
    ensures r.Ok? <==> AllKnown(p, u, known)
    ensures r.Ok? ==> forall b :: Gathered(p, u, known, b, At(r.value, b))
  {
    var one :- AddNewPairs(p, u, newOrder, map[]);
    var two :- AddUpdatedStates(u, known, stateOrder, one);
    var three :- AddRemovedPairs(p, u, removedOrder, two);
    var four :- AddStatuses(p, u, syncOrder, three);
    forall b ensures Gathered(p, u, known, b, At(four, b)) {
      BuiltFields(p, u, known, b, At(one, b), At(two, b), At(three, b), At(four, b), newOrder, stateOrder,
                  removedOrder);
      BuiltPart(p, u, known, b, At(four, b), newOrder, stateOrder, removedOrder);
    }
    return Ok(four);
  }

  lemma CollectNext(p: Protocols, u: TychoUpdate, known: map<string, Backend>, k: nat, built: Builder)
    requires k < |BACKENDS| && Gathered(p, u, known, BACKENDS[k], built)
    ensures Collect(Parts(p, u, known), BACKENDS[..k + 1]) ==
      Collect(Parts(p, u, known), BACKENDS[..k]) + if built.IsEmpty() then [] else [Finished(u, BACKENDS[k], built)]
  {
    assert BACKENDS[..k + 1][..k] == BACKENDS[..k];
  }

  /** The partitions of the gathered builders, in backend order, the empty ones left out. */
  method Finish(p: Protocols, u: TychoUpdate, known: map<string, Backend>, builders: Builders)
    returns (parts: seq<UpdatePartition>)
    requires AllKnown(p, u, known) && forall b :: Gathered(p, u, known, b, At(builders, b))
    ensures parts == Split(p, u, known)
  {
    parts := [];
    for k := 0 to |BACKENDS|
      invariant parts == Collect(Parts(p, u, known), BACKENDS[..k])
    {
      var b := BACKENDS[k];
      CollectNext(p, u, known, k, At(builders, b));
      if b in builders && !builders[b].IsEmpty() {
        parts := parts + [Finished(u, b, builders[b])];
      }
    }
    assert BACKENDS[..|BACKENDS|] == BACKENDS;
  }

  /**
   `from_tycho_update`. The four orders are the arbitrary iteration orders of the hash maps;
   the result does not depend on them.
   */
  method FromTychoUpdate(p: Protocols, u: TychoUpdate, known: map<string, Backend>, newOrder: seq<string>,
                         stateOrder: seq<string>, removedOrder: seq<string>, syncOrder: seq<string>)
    returns (r: Result<seq<UpdatePartition>, ContractError>)
    requires Enumerates(newOrder, u.newPairs.Keys)
    requires Enumerates(stateOrder, u.states.Keys)
    requires Enumerates(removedOrder, u.removedPairs.Keys)
    requires Enumerates(syncOrder, u.syncStates.Keys)
    ensures r.Ok? <==> Splittable(p, u, known)
    ensures r.Ok? ==> r.value == Split(p, u, known)
  {
    var builders :- Gather(p, u, known, newOrder, stateOrder, removedOrder, syncOrder);
    var parts := Finish(p, u, known, builders);
    SplitIsValid(p, u, known);
    r := NewUpdate(p, parts);
  }

  // Conservation.

  ghost function EntryIds(part: UpdatePartition): (ids: seq<string>)
    ensures |ids| == |part.newPairs| && forall i :: 0 <= i < |ids| ==> ids[i] == part.newPairs[i].componentId
  {
    seq(|part.newPairs|, i requires 0 <= i < |part.newPairs| => part.newPairs[i].componentId)
  }

  ghost function DeltaIds(part: UpdatePartition): (ids: seq<string>)
    ensures |ids| == |part.updatedStates| && forall i :: 0 <= i < |ids| ==> ids[i] == part.updatedStates[i].componentId
  {
    seq(|part.updatedStates|, i requires 0 <= i < |part.updatedStates| => part.updatedStates[i].componentId)
  }

  ghost function RemovalIds(part: UpdatePartition): (ids: seq<string>)
    ensures |ids| == |part.removedPairs| && forall i :: 0 <= i < |ids| ==> ids[i] == part.removedPairs[i].componentId
  {
    seq(|part.removedPairs|, i requires 0 <= i < |part.removedPairs| => part.removedPairs[i].componentId)
  }

  /** Every entry carries the update's own data for its id. */
  ghost predicate Carries(u: TychoUpdate, part: UpdatePartition) {
    && part.blockNumber == u.blockNumber
    && part.messages == []
    && (forall e :: e in part.newPairs ==>
          && e.componentId in u.newPairs && e.component == u.newPairs[e.componentId]
          && e.componentId in u.states && e.state == u.states[e.componentId])
    && (forall d :: d in part.updatedStates ==> d.componentId in u.states && d.state == u.states[d.componentId])
    && (forall x :: x in part.removedPairs ==>
          x.componentId in u.removedPairs && x.component == u.removedPairs[x.componentId])
    && (forall key :: key in part.syncStatuses ==>
          key in u.syncStates && part.syncStatuses[key] == StatusOf(u.syncStates[key]))
  }

  lemma NewIdsOf(p: Protocols, u: TychoUpdate, known: map<string, Backend>, b: Backend)
    ensures multiset(EntryIds(PartFor(p, u, known, b))) == multiset(Owned(NewOwner(p, u), [b]))
  {
    SortedKeysOnce(Owned(NewOwner(p, u), [b]));
    assert EntryIds(PartFor(p, u, known, b)) == SortedKeys(Owned(NewOwner(p, u), [b]));
  }

  lemma NewIdsKept(p: Protocols, u: TychoUpdate, known: map<string, Backend>)
    requires AllKnown(p, u, known)
    ensures multiset(Flat(EntryIds, Split(p, u, known))) == multiset(u.newPairs.Keys)
  {
    var owner := NewOwner(p, u);
    forall b ensures multiset(EntryIds(Parts(p, u, known)(b))) == multiset(Owned(owner, [b])) {
      NewIdsOf(p, u, known, b);
    }
    AllKept(Parts(p, u, known), EntryIds, owner);
    assert owner.Keys == u.newPairs.Keys;
  }

  lemma UpdatedIdsKept(p: Protocols, u: TychoUpdate, known: map<string, Backend>)
    requires AllKnown(p, u, known)
    ensures multiset(Flat(DeltaIds, Split(p, u, known))) == multiset(u.states.Keys - u.newPairs.Keys)
  {
    var owner := UpdatedOwner(u, known);
    forall b ensures multiset(DeltaIds(Parts(p, u, known)(b))) == multiset(Owned(owner, [b])) {
      SortedKeysOnce(Owned(owner, [b]));
      assert DeltaIds(PartFor(p, u, known, b)) == SortedKeys(Owned(owner, [b]));
    }
    AllKept(Parts(p, u, known), DeltaIds, owner);
    assert owner.Keys == u.states.Keys - u.newPairs.Keys;
  }

  lemma RemovedIdsKept(p: Protocols, u: TychoUpdate, known: map<string, Backend>)
    requires AllKnown(p, u, known)
    ensures multiset(Flat(RemovalIds, Split(p, u, known))) == multiset(u.removedPairs.Keys)
  {
    var owner := RemovedOwner(p, u);
    forall b ensures multiset(RemovalIds(Parts(p, u, known)(b))) == multiset(Owned(owner, [b])) {
      SortedKeysOnce(Owned(owner, [b]));
      assert RemovalIds(PartFor(p, u, known, b)) == SortedKeys(Owned(owner, [b]));
    }
    AllKept(Parts(p, u, known), RemovalIds, owner);
    assert owner.Keys == u.removedPairs.Keys;
  }

  lemma StatusKeysKept(p: Protocols, u: TychoUpdate, known: map<string, Backend>)
    requires AllKnown(p, u, known)
    ensures multiset(Flat(StatusKeys, Split(p, u, known))) == multiset(u.syncStates.Keys)
  {
    var owner := StatusOwner(p, u.syncStates);
    forall b ensures multiset(StatusKeys(Parts(p, u, known)(b))) == multiset(Owned(owner, [b])) {
      StatusKeysOwned(p, u.syncStates, b);
    }
    AllKept(Parts(p, u, known), StatusKeys, owner);
    assert owner.Keys == u.syncStates.Keys;
  }

  lemma DisjointUnion(a: set<string>, b: set<string>)
    requires a <= b
    ensures multiset(a) + multiset(b - a) == multiset(b)
  {
  }

  lemma PartCarries(p: Protocols, u: TychoUpdate, known: map<string, Backend>, b: Backend)
    ensures Carries(u, PartFor(p, u, known, b))
  {
  }

  lemma SplitCarries(p: Protocols, u: TychoUpdate, known: map<string, Backend>)
    ensures forall part :: part in Split(p, u, known) ==> Carries(u, part)
  {
    CollectIncreasing(Parts(p, u, known), BACKENDS);
    forall part | part in Split(p, u, known) ensures Carries(u, part) {
      PartCarries(p, u, known, part.backend);
      assert part == PartFor(p, u, known, part.backend);
    }
  }

  /**
   The split neither loses nor repeats anything: the state ids fall exactly into new pairs
   and updated states, removals and statuses are kept once each, and every entry keeps its data.
   */
  lemma SplitConserves(p: Protocols, u: TychoUpdate, known: map<string, Backend>)
    requires AllKnown(p, u, known)
    ensures multiset(Flat(EntryIds, Split(p, u, known))) == multiset(u.newPairs.Keys)
    ensures multiset(Flat(EntryIds, Split(p, u, known))) + multiset(Flat(DeltaIds, Split(p, u, known)))
         == multiset(u.states.Keys)
    ensures multiset(Flat(RemovalIds, Split(p, u, known))) == multiset(u.removedPairs.Keys)
    ensures multiset(Flat(StatusKeys, Split(p, u, known))) == multiset(u.syncStates.Keys)
    ensures forall part :: part in Split(p, u, known) ==> Carries(u, part)
  {
    NewIdsKept(p, u, known);
    UpdatedIdsKept(p, u, known);
    RemovedIdsKept(p, u, known);
    StatusKeysKept(p, u, known);
    SplitCarries(p, u, known);
    DisjointUnion(u.newPairs.Keys, u.states.Keys);
  }

  // Which partition holds what.

  ghost predicate IdsAscend(ids: seq<string>) {
    forall i, j :: 0 <= i < j < |ids| ==> Lt(ids[i], ids[j])
  }

  /** Everything the partition of backend `b` holds: its own, with the upstream data, in ascending order of ids. */
  ghost predicate HoldsOwn(p: Protocols, u: TychoUpdate, known: map<string, Backend>, part: UpdatePartition) {
    && (forall e :: e in part.newPairs ==>
          e.componentId in u.newPairs && p.ComponentBackend(u.newPairs[e.componentId]) == Some(part.backend))
    && (forall d :: d in part.updatedStates ==>
          && d.componentId in u.states && d.componentId !in u.newPairs
          && d.componentId in known && known[d.componentId] == d.backend == part.backend)
    && (forall r :: r in part.removedPairs ==>
          r.componentId in u.removedPairs && p.ComponentBackend(u.removedPairs[r.componentId]) == Some(part.backend))
    && (forall key :: key in part.syncStatuses <==> key in u.syncStates && p.SyncBackend(key) == Some(part.backend))
    && IdsAscend(EntryIds(part)) && IdsAscend(DeltaIds(part)) && IdsAscend(RemovalIds(part))
  }

  lemma NewInOrder(p: Protocols, u: TychoUpdate, known: map<string, Backend>, b: Backend)
    ensures EntryIds(PartFor(p, u, known, b)) == SortedKeys(Owned(NewOwner(p, u), [b]))
    ensures IdsAscend(EntryIds(PartFor(p, u, known, b)))
  {
    SortedKeysSorted(Owned(NewOwner(p, u), [b]));
  }

  lemma UpdatedInOrder(p: Protocols, u: TychoUpdate, known: map<string, Backend>, b: Backend)
    ensures DeltaIds(PartFor(p, u, known, b)) == SortedKeys(Owned(UpdatedOwner(u, known), [b]))
    ensures IdsAscend(DeltaIds(PartFor(p, u, known, b)))
  {
    SortedKeysSorted(Owned(UpdatedOwner(u, known), [b]));
  }

  lemma RemovedInOrder(p: Protocols, u: TychoUpdate, known: map<string, Backend>, b: Backend)
    ensures RemovalIds(PartFor(p, u, known, b)) == SortedKeys(Owned(RemovedOwner(p, u), [b]))
    ensures IdsAscend(RemovalIds(PartFor(p, u, known, b)))
  {
    SortedKeysSorted(Owned(RemovedOwner(p, u), [b]));
  }

  lemma NewAreOwn(p: Protocols, u: TychoUpdate, known: map<string, Backend>, b: Backend)
    ensures forall e :: e in PartFor(p, u, known, b).newPairs ==>
      e.componentId in u.newPairs && p.ComponentBackend(u.newPairs[e.componentId]) == Some(b)
  {
  }

  lemma UpdatedAreOwn(p: Protocols, u: TychoUpdate, known: map<string, Backend>, b: Backend)
    ensures forall d :: d in PartFor(p, u, known, b).updatedStates ==>
      && d.componentId in u.states && d.componentId !in u.newPairs
      && d.componentId in known && known[d.componentId] == d.backend == b
  {
  }

  lemma RemovedAreOwn(p: Protocols, u: TychoUpdate, known: map<string, Backend>, b: Backend)
    ensures forall r :: r in PartFor(p, u, known, b).removedPairs ==>
      r.componentId in u.removedPairs && p.ComponentBackend(u.removedPairs[r.componentId]) == Some(b)
  {
  }

  lemma PartHoldsOwn(p: Protocols, u: TychoUpdate, known: map<string, Backend>, b: Backend)
    ensures HoldsOwn(p, u, known, PartFor(p, u, known, b))
  {
    NewAreOwn(p, u, known, b);
    UpdatedAreOwn(p, u, known, b);
    RemovedAreOwn(p, u, known, b);
    NewInOrder(p, u, known, b);
    UpdatedInOrder(p, u, known, b);
    RemovedInOrder(p, u, known, b);
  }

  /** Each partition of the split holds exactly its own backend's entries, in ascending order of ids. */
  lemma SplitPlaces(p: Protocols, u: TychoUpdate, known: map<string, Backend>)
    ensures forall part :: part in Split(p, u, known) ==> HoldsOwn(p, u, known, part)
  {
    CollectIncreasing(Parts(p, u, known), BACKENDS);
    forall part | part in Split(p, u, known) ensures HoldsOwn(p, u, known, part) {
      PartHoldsOwn(p, u, known, part.backend);
      assert part == PartFor(p, u, known, part.backend);
    }
  }
}
