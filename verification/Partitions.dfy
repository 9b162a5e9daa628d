/**
 What the two upstream splits share: one partition for each backend, empty ones dropped,
 the rest in backend order, and the update constructor that sorts and validates them.
 */
module Partitions {
  import opened Wrappers
  import opened Wire
  import opened Contracts
  import opened Sorting
  import opened Strings

  /** The order of an ordered map's backends. */
  function Rank(backend: Backend): nat {
    match backend
    case Native => 0
    case Vm => 1
    case Rfq => 2
  }

  const BACKENDS: seq<Backend> := [Native, Vm, Rfq]

  ghost predicate Increasing(parts: seq<UpdatePartition>) {
    forall i, j :: 0 <= i < j < |parts| ==> Rank(parts[i].backend) < Rank(parts[j].backend)
  }

  /** Native comes first and RFQ last. */
  lemma IncreasingMeans(parts: seq<UpdatePartition>, i: nat, j: nat)
    requires Increasing(parts) && i < j < |parts|
    ensures parts[i].backend != Rfq && parts[j].backend != Native && parts[i].backend != parts[j].backend
  {
    assert Rank(parts[i].backend) < Rank(parts[j].backend);
  }

  function InsertPart(part: UpdatePartition, parts: seq<UpdatePartition>): seq<UpdatePartition>
    decreases |parts|
  {
    if parts == [] || Rank(part.backend) <= Rank(parts[0].backend) then [part] + parts
    else [parts[0]] + InsertPart(part, parts[1..])
  }

  /** `partitions.sort_by_key(|partition| partition.backend)`, which is stable. */
  function SortParts(parts: seq<UpdatePartition>): seq<UpdatePartition>
    decreases |parts|
  {
    if parts == [] then [] else InsertPart(parts[0], SortParts(parts[1..]))
  }

  /** `BroadcasterUpdateMessage::new`. */
  function NewUpdate(p: Protocols, parts: seq<UpdatePartition>): Result<seq<UpdatePartition>, ContractError> {
    var sorted := SortParts(parts);
    var _ :- ValidateUpdate(p, sorted);
    Ok(sorted)
  }

  lemma {:induction false} SortedStay(parts: seq<UpdatePartition>)
    requires Increasing(parts)
    ensures SortParts(parts) == parts
    decreases |parts|
  {
    if parts != [] {
      SortedStay(parts[1..]);
      assert parts == [parts[0]] + parts[1..];
    }
  }

  /** The non-empty partitions of the listed backends. */
  ghost function Collect(part: Backend -> UpdatePartition, backends: seq<Backend>): seq<UpdatePartition>
    decreases |backends|
  {
    if backends == [] then []
    else
      var last := backends[|backends| - 1];
      var before := Collect(part, backends[..|backends| - 1]);
      if part(last).IsEmpty() then before else before + [part(last)]
  }

  ghost predicate Ascend(backends: seq<Backend>) {
    forall i, j :: 0 <= i < j < |backends| ==> Rank(backends[i]) < Rank(backends[j])
  }

  lemma {:induction false} CollectIncreasing(part: Backend -> UpdatePartition, backends: seq<Backend>)
    requires forall b :: part(b).backend == b
    requires Ascend(backends)
    ensures Increasing(Collect(part, backends))
    ensures forall i :: 0 <= i < |Collect(part, backends)| ==>
      var found := Collect(part, backends)[i];
      found.backend in backends && found == part(found.backend) && !found.IsEmpty()
    decreases |backends|
  {
    if backends != [] {
      CollectIncreasing(part, backends[..|backends| - 1]);
    }
  }

  lemma {:induction false} CollectEmpty(part: Backend -> UpdatePartition, backends: seq<Backend>)
    ensures Collect(part, backends) == [] <==> forall b :: b in backends ==> part(b).IsEmpty()
    decreases |backends|
  {
    if backends != [] {
      var init := backends[..|backends| - 1];
      CollectEmpty(part, init);
      assert backends == init + [backends[|backends| - 1]];
    }
  }

  lemma EveryBackend(b: Backend)
    ensures b in BACKENDS
  {
    assert BACKENDS[Rank(b)] == b;
  }

  /**
   The collected partitions of all backends pass their own validator, come out of the
   constructor unchanged, and are missing only when every partition is empty.
   */
  lemma CollectedIsValid(p: Protocols, part: Backend -> UpdatePartition)
    requires forall b :: part(b).backend == b && WellPlaced(p, part(b))
    ensures var parts := Collect(part, BACKENDS);
      && Increasing(parts)
      && (parts == [] <==> forall b :: part(b).IsEmpty())
      && (parts == [] ==> NewUpdate(p, parts) == Err(EmptyUpdate))
      && (parts != [] ==> NewUpdate(p, parts) == Ok(parts) && ValidUpdate(p, parts))
  {
    var parts := Collect(part, BACKENDS);
    CollectIncreasing(part, BACKENDS);
    CollectEmpty(part, BACKENDS);
    forall b ensures b in BACKENDS { EveryBackend(b); }
    SortedStay(parts);
    ValidateUpdateExact(p, parts);
  }

  // Conservation of the ids a partition carries.

  ghost function Flat(ids: UpdatePartition -> seq<string>, parts: seq<UpdatePartition>): seq<string>
    decreases |parts|
  {
    if parts == [] then [] else Flat(ids, parts[..|parts| - 1]) + ids(parts[|parts| - 1])
  }

  /** The keys an ownership table gives to the listed backends. */
  ghost function Owned(owner: map<string, Backend>, backends: seq<Backend>): set<string> {
    set id | id in owner && owner[id] in backends
  }

  lemma OwnedSplits(owner: map<string, Backend>, init: seq<Backend>, last: Backend)
    requires last !in init
    ensures multiset(Owned(owner, init + [last])) == multiset(Owned(owner, init)) + multiset(Owned(owner, [last]))
  {
    assert Owned(owner, init + [last]) == Owned(owner, init) + Owned(owner, [last]);
    assert Owned(owner, init) !! Owned(owner, [last]);
  }

  lemma {:induction false} CollectKeeps(part: Backend -> UpdatePartition, ids: UpdatePartition -> seq<string>,
                                        owner: map<string, Backend>, backends: seq<Backend>)
    requires Ascend(backends)
    requires forall b :: part(b).IsEmpty() ==> ids(part(b)) == []
    requires forall b :: multiset(ids(part(b))) == multiset(Owned(owner, [b]))
    ensures multiset(Flat(ids, Collect(part, backends))) == multiset(Owned(owner, backends))
    decreases |backends|
  {
    if backends != [] {
      var last := backends[|backends| - 1];
      var init := backends[..|backends| - 1];
      CollectKeeps(part, ids, owner, init);
      var before := Collect(part, init);
      assert backends == init + [last];
      OwnedSplits(owner, init, last);
      if !part(last).IsEmpty() {
        assert (before + [part(last)])[..|before|] == before;
      }
    }
  }

  /** Every id of the ownership table is carried exactly once, by some partition. */
  lemma AllKept(part: Backend -> UpdatePartition, ids: UpdatePartition -> seq<string>, owner: map<string, Backend>)
    requires forall b :: part(b).IsEmpty() ==> ids(part(b)) == []
    requires forall b :: multiset(ids(part(b))) == multiset(Owned(owner, [b]))
    ensures multiset(Flat(ids, Collect(part, BACKENDS))) == multiset(owner.Keys)
  {
    CollectKeeps(part, ids, owner, BACKENDS);
    assert Owned(owner, BACKENDS) == owner.Keys by {
      forall id | id in owner ensures id in Owned(owner, BACKENDS) { EveryBackend(owner[id]); }
    }
  }

  /** The ids of one backend, in the order they were met, are an enumeration of that backend's keys. */
  lemma VisitedAreOwned(order: seq<string>, keys: set<string>, mine: set<string>)
    requires Enumerates(order, keys) && mine <= keys
    ensures multiset(Visited(order, mine)) == multiset(mine)
  {
    VisitedEnumerates(order, keys, mine);
    EnumerationOnce(Visited(order, mine), mine);
  }

  lemma {:induction false} CollectHas(part: Backend -> UpdatePartition, backends: seq<Backend>, b: Backend)
    requires b in backends && !part(b).IsEmpty()
    ensures part(b) in Collect(part, backends)
    decreases |backends|
  {
    var init := backends[..|backends| - 1];
    assert backends == init + [backends[|backends| - 1]];
    if b in init {
      CollectHas(part, init, b);
    }
  }

  // Status keys, which both splits file alike.

  ghost function StatusOwner(p: Protocols, states: map<string, SynchronizerState>): map<string, Backend> {
    map key | key in states && p.SyncBackend(key).Some? :: p.SyncBackend(key).value
  }

  ghost function StatusesFor(p: Protocols, states: map<string, SynchronizerState>, b: Backend, keys: set<string>)
    : map<string, SyncStatus>
  {
    map key | key in states && key in keys && p.SyncBackend(key) == Some(b) :: StatusOf(states[key])
  }

  ghost function StatusKeys(part: UpdatePartition): seq<string> {
    SortedKeys(part.syncStatuses.Keys)
  }

  lemma StatusKeysOwned(p: Protocols, states: map<string, SynchronizerState>, b: Backend)
    ensures multiset(SortedKeys(StatusesFor(p, states, b, states.Keys).Keys))
         == multiset(Owned(StatusOwner(p, states), [b]))
  {
    var mine := Owned(StatusOwner(p, states), [b]);
    SortedKeysOnce(mine);
    assert StatusesFor(p, states, b, states.Keys).Keys == mine;
  }
}
