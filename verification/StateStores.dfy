/** One backend's published state, and how updates and replacements change it. */
module StateStores {
  import opened Wrappers
  import opened Wire
  import opened Replay

  datatype Pool = Pool(state: string, component: Component)

  datatype Content = Content(version: u64, block: u64, pools: map<string, Pool>) {
    predicate Ready() { pools != map[] }
  }

  /** The published content, and whether requests may be served from it. */
  datatype Store = Store(content: Content, requestsAllowed: bool)

  const EMPTY_STORE := Store(Content(0, 0, map[]), false)

  /**
   New pairs enter when their protocol is known and their state came along; the remaining
   states replace those of known pools; removals come last.
   */
  function UpdatePools(p: Protocols, pools: map<string, Pool>, u: StoreUpdate): map<string, Pool> {
    var added := map id | id in u.newPairs && id in u.states && p.componentKind(u.newPairs[id]).Some?
                   :: Pool(u.states[id], u.newPairs[id]);
    var known := pools + added;
    var updated := map id | id in known ::
                     if id in u.states && id !in added then known[id].(state := u.states[id]) else known[id];
    updated - u.removedPairs.Keys
  }

  function UpdateContent(p: Protocols, c: Content, u: StoreUpdate, version: u64): Content {
    Content(version, u.block, UpdatePools(p, c.pools, u))
  }

  function Published(c: Content): Store {
    Store(c, c.Ready())
  }

  function ApplyUpdate(p: Protocols, s: Store, u: StoreUpdate): Store {
    Published(UpdateContent(p, s.content, u, SaturatingSucc(s.content.version)))
  }

  function AlignVersion(s: Store, version: u64): Store {
    Published(s.content.(version := version))
  }

  function Fence(s: Store): Store {
    s.(requestsAllowed := false)
  }

  // Decoded partitions as store updates.

  function EntryStates(entries: seq<StateEntry>): map<string, string> {
    if entries == [] then map[]
    else
      var last := entries[|entries| - 1];
      EntryStates(entries[..|entries| - 1])[last.componentId := last.state]
  }

  function EntryComponents(entries: seq<StateEntry>): map<string, Component> {
    if entries == [] then map[]
    else
      var last := entries[|entries| - 1];
      EntryComponents(entries[..|entries| - 1])[last.componentId := last.component]
  }

  function DeltaStates(deltas: seq<StateDelta>): map<string, string> {
    if deltas == [] then map[]
    else
      var last := deltas[|deltas| - 1];
      DeltaStates(deltas[..|deltas| - 1])[last.componentId := last.state]
  }

  function RemovedComponents(removed: seq<RemovedPair>): map<string, Component> {
    if removed == [] then map[]
    else
      var last := removed[|removed| - 1];
      RemovedComponents(removed[..|removed| - 1])[last.componentId := last.component]
  }

  function SnapshotUpdate(part: SnapshotPartition): StoreUpdate {
    StoreUpdate(part.blockNumber, EntryStates(part.states), EntryComponents(part.states), map[])
  }

  function LiveUpdate(part: UpdatePartition): StoreUpdate {
    StoreUpdate(part.blockNumber,
                EntryStates(part.newPairs) + DeltaStates(part.updatedStates),
                EntryComponents(part.newPairs),
                RemovedComponents(part.removedPairs))
  }
}
