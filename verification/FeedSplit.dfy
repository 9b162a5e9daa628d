/** Splitting one raw feed message into per-backend partitions. */
module FeedSplit {
  import opened Wrappers
  import opened Wire
  import opened Contracts
  import opened Completeness
  import opened Sorting
  import opened Strings
  import opened Partitions

  /** One protocol's feed message; `body` stands for its snapshots and deltas. */
  datatype SyncMessage = SyncMessage(header: Header, body: string)

  datatype Feed = Feed(stateMsgs: map<string, SyncMessage>, syncStates: map<string, SynchronizerState>)

  /** `sync_state_block_number`. */
  function SyncNumber(state: SynchronizerState): Option<u64> {
    match state
    case Ready(h) => Some(h.number)
    case Delayed(h) => Some(h.number)
    case Stale(h) => Some(h.number)
    case Advanced(h) => Some(h.number)
    case Started => None
    case Ended(_) => None
  }

  /** A protocol without a reported state counts as Started. */
  function SyncStateOf(feed: Feed, protocol: string): SynchronizerState {
    if protocol in feed.syncStates then feed.syncStates[protocol] else Started
  }

  function MessageOf(feed: Feed, protocol: string): ProtocolMessage
    requires protocol in feed.stateMsgs
  {
    var message := feed.stateMsgs[protocol];
    ProtocolMessage(protocol, SyncStateOf(feed, protocol), message.header, message.body)
  }

  // The largest of a finite set of numbers.

  ghost predicate Greatest(n: u64, ns: set<u64>) {
    n in ns && forall m :: m in ns ==> m <= n
  }

  /** The set's maximum, or None when it is empty. */
  ghost predicate MaxIs(best: Option<u64>, ns: set<u64>) {
    if best.Some? then Greatest(best.value, ns) else ns == {}
  }

  ghost function Members(ns: seq<u64>): set<u64> {
    set i | 0 <= i < |ns| :: ns[i]
  }

  lemma LastMember(ns: seq<u64>)
    requires ns != []
    ensures Members(ns) == Members(ns[..|ns| - 1]) + {ns[|ns| - 1]}
  {
    var init := ns[..|ns| - 1];
    forall i | 0 <= i < |ns| ensures ns[i] in Members(init) + {ns[|ns| - 1]} {
      if i < |init| {
        assert init[i] in Members(init);
      }
    }
    forall i | 0 <= i < |init| ensures init[i] in Members(ns) {
      assert init[i] == ns[i];
    }
  }

  /** `Iterator::max`. */
  function LastMax(ns: seq<u64>): (best: Option<u64>)
    ensures MaxIs(best, Members(ns))
  {
    if ns == [] then None
    else
      LastMember(ns);
      var before := LastMax(ns[..|ns| - 1]);
      if before.Some? && before.value > ns[|ns| - 1] then before else Some(ns[|ns| - 1])
  }

  function Numbers(ms: seq<ProtocolMessage>): seq<u64> {
    seq(|ms|, i requires 0 <= i < |ms| => ms[i].header.number)
  }

  // The specification.

  ghost function MessageOwner(p: Protocols, feed: Feed): map<string, Backend> {
    map key | key in feed.stateMsgs && p.SyncBackend(key).Some? :: p.SyncBackend(key).value
  }

  ghost function MessagesOf(feed: Feed, protocols: seq<string>): (ms: seq<ProtocolMessage>)
    requires forall i :: 0 <= i < |protocols| ==> protocols[i] in feed.stateMsgs
    ensures |ms| == |protocols|
    ensures forall i :: 0 <= i < |ms| ==> ms[i] == MessageOf(feed, protocols[i])
  {
    seq(|protocols|, i requires 0 <= i < |protocols| => MessageOf(feed, protocols[i]))
  }

  ghost function SyncNumbers(p: Protocols, feed: Feed, b: Backend, keys: set<string>): set<u64> {
    set key | key in feed.syncStates && key in keys && p.SyncBackend(key) == Some(b)
      && SyncNumber(feed.syncStates[key]).Some? :: SyncNumber(feed.syncStates[key]).value
  }

  ghost function HeaderNumbers(p: Protocols, feed: Feed, b: Backend): set<u64> {
    set key | key in feed.stateMsgs && p.SyncBackend(key) == Some(b) :: feed.stateMsgs[key].header.number
  }

  /** The block of a partition: the largest header number, else the largest sync number, else 0. */
  ghost predicate BlockIs(p: Protocols, feed: Feed, b: Backend, block: u64) {
    if HeaderNumbers(p, feed, b) != {} then Greatest(block, HeaderNumbers(p, feed, b))
    else if SyncNumbers(p, feed, b, feed.syncStates.Keys) != {}
    then Greatest(block, SyncNumbers(p, feed, b, feed.syncStates.Keys))
    else block == 0
  }

  lemma BlockUnique(p: Protocols, feed: Feed, b: Backend, m: u64, n: u64)
    requires BlockIs(p, feed, b, m) && BlockIs(p, feed, b, n)
    ensures m == n
  {
  }

  lemma {:induction false} GreatestExists(ns: set<u64>)
    requires ns != {}
    ensures exists n: u64 :: Greatest(n, ns)
    decreases |ns|
  {
    var x :| x in ns;
    var rest := ns - {x};
    if rest == {} {
      assert ns == {x};
      assert Greatest(x, ns);
    } else {
      GreatestExists(rest);
      var m: u64 :| Greatest(m, rest);
      var best: u64 := if m < x then x else m;
      forall k | k in ns ensures k <= best {
        assert k == x || k in rest;
      }
      assert Greatest(best, ns);
    }
  }

  ghost function BlockOf(p: Protocols, feed: Feed, b: Backend): (block: u64)
    ensures BlockIs(p, feed, b, block)
  {
    var headers := HeaderNumbers(p, feed, b);
    var syncs := SyncNumbers(p, feed, b, feed.syncStates.Keys);
    if headers != {} then GreatestExists(headers); var n: u64 :| Greatest(n, headers); n
    else if syncs != {} then GreatestExists(syncs); var n: u64 :| Greatest(n, syncs); n
    else 0
  }

  ghost function PartFor(p: Protocols, feed: Feed, order: seq<string>, b: Backend): UpdatePartition
    requires Enumerates(order, feed.stateMsgs.Keys)
  {
    UpdatePartition(
      b,
      BlockOf(p, feed, b),
      Met(p, feed, b, order),
      [],
      [],
      [],
      StatusesFor(p, feed.syncStates, b, feed.syncStates.Keys))
  }

  ghost function Parts(p: Protocols, feed: Feed, order: seq<string>): Backend -> UpdatePartition
    requires Enumerates(order, feed.stateMsgs.Keys)
  {
    b => PartFor(p, feed, order, b)
  }

  ghost function Split(p: Protocols, feed: Feed, order: seq<string>): seq<UpdatePartition>
    requires Enumerates(order, feed.stateMsgs.Keys)
  {
    Collect(Parts(p, feed, order), BACKENDS)
  }

  ghost predicate Classified(p: Protocols, keys: set<string>) {
    forall key :: key in keys ==> p.SyncBackend(key).Some?
  }

  ghost predicate Splittable(p: Protocols, feed: Feed) {
    && Classified(p, feed.syncStates.Keys)
    && Classified(p, feed.stateMsgs.Keys)
    && (feed.syncStates != map[] || feed.stateMsgs != map[])
  }

  // The first loop: statuses and the largest sync number of each backend.

  function StatusesAt(m: map<Backend, map<string, SyncStatus>>, b: Backend): map<string, SyncStatus> {
    if b in m then m[b] else map[]
  }

  function NumberAt(m: map<Backend, u64>, b: Backend): Option<u64> {
    if b in m then Some(m[b]) else None
  }

  function MessagesAt(m: map<Backend, seq<ProtocolMessage>>, b: Backend): seq<ProtocolMessage> {
    if b in m then m[b] else []
  }

  /** What one backend's status map and number hold after the listed keys. */
  ghost predicate Tracked(p: Protocols, feed: Feed, b: Backend, seen: set<string>, statuses: map<string, SyncStatus>,
                          number: Option<u64>)
  {
    statuses == StatusesFor(p, feed.syncStates, b, seen) && MaxIs(number, SyncNumbers(p, feed, b, seen))
  }

  function Raise(number: Option<u64>, state: SynchronizerState): Option<u64> {
    match SyncNumber(state)
    case None => number
    case Some(n) => Some(if number.Some? then Max(number.value, n) else n)
  }

  lemma TrackMine(p: Protocols, feed: Feed, b: Backend, seen: set<string>, statuses: map<string, SyncStatus>,
                  number: Option<u64>, key: string)
    requires Tracked(p, feed, b, seen, statuses, number)
    requires key in feed.syncStates && p.SyncBackend(key) == Some(b)
    ensures Tracked(p, feed, b, seen + {key}, statuses[key := StatusOf(feed.syncStates[key])],
                    Raise(number, feed.syncStates[key]))
  {
    var before, after := SyncNumbers(p, feed, b, seen), SyncNumbers(p, feed, b, seen + {key});
    match SyncNumber(feed.syncStates[key])
    case None =>
      assert after == before;
    case Some(n) =>
      assert after == before + {n};
  }

  lemma TrackOther(p: Protocols, feed: Feed, b: Backend, seen: set<string>, statuses: map<string, SyncStatus>,
                   number: Option<u64>, key: string)
    requires Tracked(p, feed, b, seen, statuses, number)
    requires key in feed.syncStates && p.SyncBackend(key) != Some(b)
    ensures Tracked(p, feed, b, seen + {key}, statuses, number)
  {
    assert StatusesFor(p, feed.syncStates, b, seen + {key}) == StatusesFor(p, feed.syncStates, b, seen);
    assert SyncNumbers(p, feed, b, seen + {key}) == SyncNumbers(p, feed, b, seen);
  }

  function RaiseAt(numbers: map<Backend, u64>, b: Backend, state: SynchronizerState): map<Backend, u64> {
    match Raise(NumberAt(numbers, b), state)
    case Some(n) => numbers[b := n]
    case None => numbers
  }

  ghost predicate AllTracked(p: Protocols, feed: Feed, seen: set<string>,
                             statuses: map<Backend, map<string, SyncStatus>>, numbers: map<Backend, u64>)
  {
    forall b :: Tracked(p, feed, b, seen, StatusesAt(statuses, b), NumberAt(numbers, b))
  }

  lemma TrackAll(p: Protocols, feed: Feed, seen: set<string>, statuses: map<Backend, map<string, SyncStatus>>,
                 numbers: map<Backend, u64>, key: string)
    requires AllTracked(p, feed, seen, statuses, numbers)
    requires key in feed.syncStates && p.SyncBackend(key).Some?
    ensures var mine, state := p.SyncBackend(key).value, feed.syncStates[key];
      AllTracked(p, feed, seen + {key}, statuses[mine := StatusesAt(statuses, mine)[key := StatusOf(state)]],
                 RaiseAt(numbers, mine, state))
  {
    var mine, state := p.SyncBackend(key).value, feed.syncStates[key];
    var after, raised := statuses[mine := StatusesAt(statuses, mine)[key := StatusOf(state)]], RaiseAt(numbers, mine, state);
    forall b ensures Tracked(p, feed, b, seen + {key}, StatusesAt(after, b), NumberAt(raised, b)) {
      if b == mine {
        TrackMine(p, feed, mine, seen, StatusesAt(statuses, mine), NumberAt(numbers, mine), key);
      } else {
        TrackOther(p, feed, b, seen, StatusesAt(statuses, b), NumberAt(numbers, b), key);
      }
    }
  }

  ghost predicate EachClassified(p: Protocols, keys: seq<string>) {
    forall i :: 0 <= i < |keys| ==> p.SyncBackend(keys[i]).Some?
  }

  lemma ClassifiedNext(p: Protocols, keys: seq<string>, i: nat)
    requires i < |keys| && EachClassified(p, keys[..i]) && p.SyncBackend(keys[i]).Some?
    ensures EachClassified(p, keys[..i + 1])
    ensures Elements(keys[..i + 1]) == Elements(keys[..i]) + {keys[i]}
  {
    ElementsNext(keys, i);
    assert keys[..i + 1] == keys[..i] + [keys[i]];
  }

  lemma EveryKeyKnown(p: Protocols, keys: set<string>, order: seq<string>)
    requires Elements(order) == keys && EachClassified(p, order)
    ensures Classified(p, keys)
  {
    AllVisited(order, keys, set key | key in keys && p.SyncBackend(key).Some?);
  }

  method CollectStatuses(p: Protocols, feed: Feed, order: seq<string>)
    returns (r: Result<(map<Backend, map<string, SyncStatus>>, map<Backend, u64>), ContractError>)
    requires Elements(order) == feed.syncStates.Keys
    ensures r.Ok? <==> Classified(p, feed.syncStates.Keys)
    ensures r.Ok? ==> AllTracked(p, feed, feed.syncStates.Keys, r.value.0, r.value.1)
  {
    var statuses: map<Backend, map<string, SyncStatus>> := map[];
    var numbers: map<Backend, u64> := map[];
    ghost var seen: set<string> := {};
    for i := 0 to |order|
      invariant seen == Elements(order[..i])
      invariant EachClassified(p, order[..i])
      invariant AllTracked(p, feed, seen, statuses, numbers)
    {
      VisitsKey(order, feed.syncStates.Keys, i);
      var key := order[i];
      var backend := p.SyncBackend(key);
      if backend.None? {
        return Err(UnknownSyncStateProtocol(key));
      }
      var mine := backend.value;
      var state := feed.syncStates[key];
      TrackAll(p, feed, seen, statuses, numbers, key);
      statuses := statuses[mine := StatusesAt(statuses, mine)[key := StatusOf(state)]];
      numbers := RaiseAt(numbers, mine, state);
      ClassifiedNext(p, order, i);
      seen := seen + {key};
    }
    assert order[..|order|] == order;
    EveryKeyKnown(p, feed.syncStates.Keys, order);
    return Ok((statuses, numbers));
  }

  // The second loop: the messages.

  /** The messages of one backend, in the order they were met. */
  ghost function Met(p: Protocols, feed: Feed, b: Backend, keys: seq<string>): seq<ProtocolMessage> {
    MessagesOf(feed, Visited(keys, Owned(MessageOwner(p, feed), [b])))
  }

  lemma MessageStep(p: Protocols, feed: Feed, b: Backend, keys: seq<string>, key: string)
    requires key in feed.stateMsgs && p.SyncBackend(key).Some?
    ensures Met(p, feed, b, keys + [key]) ==
      if p.SyncBackend(key) == Some(b) then Met(p, feed, b, keys) + [MessageOf(feed, key)] else Met(p, feed, b, keys)
  {
    assert (keys + [key])[..|keys|] == keys;
    assert key in Owned(MessageOwner(p, feed), [b]) <==> p.SyncBackend(key) == Some(b);
  }

  ghost predicate AllMet(p: Protocols, feed: Feed, now: map<Backend, seq<ProtocolMessage>>, keys: seq<string>) {
    forall b :: MessagesAt(now, b) == Met(p, feed, b, keys)
  }

  function PutMessage(now: map<Backend, seq<ProtocolMessage>>, b: Backend, message: ProtocolMessage)
    : map<Backend, seq<ProtocolMessage>>
  {
    now[b := MessagesAt(now, b) + [message]]
  }

  lemma NothingMet(p: Protocols, feed: Feed, keys: seq<string>)
    ensures AllMet(p, feed, map[], keys[..0]) && EachClassified(p, keys[..0])
  {
    assert keys[..0] == [];
  }

  lemma MessageFiled(p: Protocols, feed: Feed, now: map<Backend, seq<ProtocolMessage>>, keys: seq<string>, key: string)
    requires AllMet(p, feed, now, keys)
    requires key in feed.stateMsgs && p.SyncBackend(key).Some?
    ensures var mine := p.SyncBackend(key).value;
      AllMet(p, feed, PutMessage(now, mine, MessageOf(feed, key)), keys + [key])
  {
    forall b { MessageStep(p, feed, b, keys, key); }
  }

  lemma NextMessageFiled(p: Protocols, feed: Feed, now: map<Backend, seq<ProtocolMessage>>, keys: seq<string>, i: nat)
    requires i < |keys| && AllMet(p, feed, now, keys[..i]) && EachClassified(p, keys[..i])
    requires keys[i] in feed.stateMsgs && p.SyncBackend(keys[i]).Some?
    ensures var mine := p.SyncBackend(keys[i]).value;
      AllMet(p, feed, PutMessage(now, mine, MessageOf(feed, keys[i])), keys[..i + 1])
    ensures EachClassified(p, keys[..i + 1])
  {
    assert keys[..i + 1] == keys[..i] + [keys[i]];
    MessageFiled(p, feed, now, keys[..i], keys[i]);
  }

  method CollectMessages(p: Protocols, feed: Feed, order: seq<string>)
    returns (r: Result<map<Backend, seq<ProtocolMessage>>, ContractError>)
    requires Elements(order) == feed.stateMsgs.Keys
    ensures r.Ok? <==> Classified(p, feed.stateMsgs.Keys)
    ensures r.Ok? ==> AllMet(p, feed, r.value, order)
  {
    var messages: map<Backend, seq<ProtocolMessage>> := map[];
    NothingMet(p, feed, order);
    for i := 0 to |order|
      invariant EachClassified(p, order[..i])
      invariant AllMet(p, feed, messages, order[..i])
    {
      VisitsKey(order, feed.stateMsgs.Keys, i);
      var key := order[i];
      var backend := p.SyncBackend(key);
      if backend.None? {
        return Err(UnknownSyncStateProtocol(key));
      }
      NextMessageFiled(p, feed, messages, order, i);
      messages := PutMessage(messages, backend.value, MessageOf(feed, key));
    }
    assert order[..|order|] == order;
    EveryKeyKnown(p, feed.stateMsgs.Keys, order);
    return Ok(messages);
  }

  // The result.

  lemma MetNumbers(p: Protocols, feed: Feed, order: seq<string>, b: Backend)
    requires Enumerates(order, feed.stateMsgs.Keys)
    ensures Members(Numbers(Met(p, feed, b, order))) == HeaderNumbers(p, feed, b)
  {
    var ids := Visited(order, Owned(MessageOwner(p, feed), [b]));
    var ns := Numbers(Met(p, feed, b, order));
    VisitedOnce(order, Owned(MessageOwner(p, feed), [b]));
    forall n | n in HeaderNumbers(p, feed, b) ensures n in Members(ns) {
      var key :| key in feed.stateMsgs && p.SyncBackend(key) == Some(b) && feed.stateMsgs[key].header.number == n;
      assert key in Elements(order);
      assert key in ids;
      var i :| 0 <= i < |ids| && ids[i] == key;
      assert ns[i] == n;
    }
    forall n | n in Members(ns) ensures n in HeaderNumbers(p, feed, b) {
      var i :| 0 <= i < |ns| && ns[i] == n;
      assert ids[i] in feed.stateMsgs && p.SyncBackend(ids[i]) == Some(b);
    }
  }

  function BlockNumber(messages: seq<ProtocolMessage>, number: Option<u64>): u64 {
    match LastMax(Numbers(messages))
    case Some(n) => n
    case None => if number.Some? then number.value else 0
  }

  lemma BlockBuilt(p: Protocols, feed: Feed, order: seq<string>, b: Backend, number: Option<u64>)
    requires Enumerates(order, feed.stateMsgs.Keys)
    requires MaxIs(number, SyncNumbers(p, feed, b, feed.syncStates.Keys))
    ensures BlockNumber(Met(p, feed, b, order), number) == BlockOf(p, feed, b)
  {
    MetNumbers(p, feed, order, b);
    BlockUnique(p, feed, b, BlockNumber(Met(p, feed, b, order), number), BlockOf(p, feed, b));
  }

  lemma PartPlaced(p: Protocols, feed: Feed, order: seq<string>, b: Backend)
    requires Enumerates(order, feed.stateMsgs.Keys)
    ensures Parts(p, feed, order)(b).backend == b && WellPlaced(p, Parts(p, feed, order)(b))
  {
  }

  lemma NothingDropped(p: Protocols, feed: Feed, order: seq<string>)
    requires Enumerates(order, feed.stateMsgs.Keys)
    requires Classified(p, feed.syncStates.Keys) && Classified(p, feed.stateMsgs.Keys)
    ensures (forall b :: Parts(p, feed, order)(b).IsEmpty()) <==> feed.stateMsgs == map[] && feed.syncStates == map[]
  {
    if key :| key in feed.stateMsgs {
      var b := p.SyncBackend(key).value;
      VisitedOnce(order, Owned(MessageOwner(p, feed), [b]));
      assert key in Elements(order);
      assert key in Visited(order, Owned(MessageOwner(p, feed), [b]));
      assert !Parts(p, feed, order)(b).IsEmpty();
    } else if key :| key in feed.syncStates {
      var b := p.SyncBackend(key).value;
      assert key in StatusesFor(p, feed.syncStates, b, feed.syncStates.Keys);
      assert !Parts(p, feed, order)(b).IsEmpty();
    } else {
      forall b ensures Parts(p, feed, order)(b).IsEmpty() {
        assert Owned(MessageOwner(p, feed), [b]) == {};
        assert StatusesFor(p, feed.syncStates, b, feed.syncStates.Keys) == map[];
      }
    }
  }

  /** A classified feed's partitions are valid and increasing; an empty feed is refused. */
  lemma SplitIsValid(p: Protocols, feed: Feed, order: seq<string>)
    requires Enumerates(order, feed.stateMsgs.Keys)
    requires Classified(p, feed.syncStates.Keys) && Classified(p, feed.stateMsgs.Keys)
    ensures Splittable(p, feed) ==>
      NewUpdate(p, Split(p, feed, order)) == Ok(Split(p, feed, order)) && ValidUpdate(p, Split(p, feed, order))
    ensures !Splittable(p, feed) ==> NewUpdate(p, Split(p, feed, order)) == Err(EmptyUpdate)
    ensures Increasing(Split(p, feed, order))
  {
    forall b { PartPlaced(p, feed, order, b); }
    NothingDropped(p, feed, order);
    CollectedIsValid(p, Parts(p, feed, order));
  }

  lemma CollectNext(p: Protocols, feed: Feed, order: seq<string>, k: nat, statuses: map<string, SyncStatus>,
                    number: Option<u64>)
    requires k < |BACKENDS| && Enumerates(order, feed.stateMsgs.Keys)
    requires Tracked(p, feed, BACKENDS[k], feed.syncStates.Keys, statuses, number)
    ensures var mine := Met(p, feed, BACKENDS[k], order);
      Collect(Parts(p, feed, order), BACKENDS[..k + 1]) == Collect(Parts(p, feed, order), BACKENDS[..k]) +
        if mine == [] && statuses == map[] then []
        else [UpdatePartition(BACKENDS[k], BlockNumber(mine, number), mine, [], [], [], statuses)]
  {
    assert BACKENDS[..k + 1][..k] == BACKENDS[..k];
    BlockBuilt(p, feed, order, BACKENDS[k], number);
  }

  /** The partitions in backend order, those with neither message nor status left out. */
  method Finish(p: Protocols, feed: Feed, order: seq<string>, messages: map<Backend, seq<ProtocolMessage>>,
                statuses: map<Backend, map<string, SyncStatus>>, numbers: map<Backend, u64>)
    returns (parts: seq<UpdatePartition>)
    requires Enumerates(order, feed.stateMsgs.Keys) && AllMet(p, feed, messages, order)
    requires AllTracked(p, feed, feed.syncStates.Keys, statuses, numbers)
    ensures parts == Split(p, feed, order)
  {
    parts := [];
    for k := 0 to |BACKENDS|
      invariant parts == Collect(Parts(p, feed, order), BACKENDS[..k])
    {
      var b := BACKENDS[k];
      var mine, tracked := MessagesAt(messages, b), StatusesAt(statuses, b);
      CollectNext(p, feed, order, k, tracked, NumberAt(numbers, b));
      if mine != [] || tracked != map[] {
        var block := BlockNumber(mine, NumberAt(numbers, b));
        parts := parts + [UpdatePartition(b, block, mine, [], [], [], tracked)];
      }
    }
    assert BACKENDS[..|BACKENDS|] == BACKENDS;
  }

  /**
   `from_tycho_feed_message`. The orders are the arbitrary iteration orders of the hash maps;
   only the order of the messages within a partition depends on them.
   */
  method FromTychoFeedMessage(p: Protocols, feed: Feed, syncOrder: seq<string>, order: seq<string>)
    returns (r: Result<seq<UpdatePartition>, ContractError>)
    requires Enumerates(syncOrder, feed.syncStates.Keys)
    requires Enumerates(order, feed.stateMsgs.Keys)
    ensures r.Ok? <==> Splittable(p, feed)
    ensures r.Ok? ==> r.value == Split(p, feed, order)
  {
    var found :- CollectStatuses(p, feed, syncOrder);
    var messages :- CollectMessages(p, feed, order);
    var parts := Finish(p, feed, order, messages, found.0, found.1);
    SplitIsValid(p, feed, order);
    r := NewUpdate(p, parts);
  }

  // Conservation.

  ghost function MessageKeys(part: UpdatePartition): (keys: seq<string>)
    ensures |keys| == |part.messages| && forall i :: 0 <= i < |keys| ==> keys[i] == part.messages[i].protocol
  {
    seq(|part.messages|, i requires 0 <= i < |part.messages| => part.messages[i].protocol)
  }

  /** Every message and status carries the feed's own data for its protocol. */
  ghost predicate Carries(feed: Feed, part: UpdatePartition) {
    && (forall m :: m in part.messages ==> m.protocol in feed.stateMsgs && m == MessageOf(feed, m.protocol))
    && (forall key :: key in part.syncStatuses ==>
          key in feed.syncStates && part.syncStatuses[key] == StatusOf(feed.syncStates[key]))
    && part.newPairs == [] && part.updatedStates == [] && part.removedPairs == []
  }

  lemma MessagesKept(p: Protocols, feed: Feed, order: seq<string>)
    requires Enumerates(order, feed.stateMsgs.Keys) && Classified(p, feed.stateMsgs.Keys)
    ensures multiset(Flat(MessageKeys, Split(p, feed, order))) == multiset(feed.stateMsgs.Keys)
  {
    var owner := MessageOwner(p, feed);
    forall b ensures multiset(MessageKeys(Parts(p, feed, order)(b))) == multiset(Owned(owner, [b])) {
      VisitedAreOwned(order, feed.stateMsgs.Keys, Owned(owner, [b]));
      assert MessageKeys(PartFor(p, feed, order, b)) == Visited(order, Owned(owner, [b]));
    }
    AllKept(Parts(p, feed, order), MessageKeys, owner);
    assert owner.Keys == feed.stateMsgs.Keys;
  }

  lemma StatusesKept(p: Protocols, feed: Feed, order: seq<string>)
    requires Enumerates(order, feed.stateMsgs.Keys) && Classified(p, feed.syncStates.Keys)
    ensures multiset(Flat(StatusKeys, Split(p, feed, order))) == multiset(feed.syncStates.Keys)
  {
    var owner := StatusOwner(p, feed.syncStates);
    forall b ensures multiset(StatusKeys(Parts(p, feed, order)(b))) == multiset(Owned(owner, [b])) {
      StatusKeysOwned(p, feed.syncStates, b);
    }
    AllKept(Parts(p, feed, order), StatusKeys, owner);
    assert owner.Keys == feed.syncStates.Keys;
  }

  lemma PartsCarry(p: Protocols, feed: Feed, order: seq<string>)
    requires Enumerates(order, feed.stateMsgs.Keys)
    requires Classified(p, feed.syncStates.Keys) && Classified(p, feed.stateMsgs.Keys)
    ensures forall part :: part in Split(p, feed, order) ==> Carries(feed, part) && BlockIs(p, feed, part.backend, part.blockNumber)
  {
    CollectIncreasing(Parts(p, feed, order), BACKENDS);
    forall part | part in Split(p, feed, order)
      ensures Carries(feed, part) && BlockIs(p, feed, part.backend, part.blockNumber)
    {
      assert part == PartFor(p, feed, order, part.backend);
    }
  }

  /** No message and no status is lost, repeated or altered. */
  lemma SplitConserves(p: Protocols, feed: Feed, order: seq<string>)
    requires Enumerates(order, feed.stateMsgs.Keys)
    requires Classified(p, feed.syncStates.Keys) && Classified(p, feed.stateMsgs.Keys)
    ensures multiset(Flat(MessageKeys, Split(p, feed, order))) == multiset(feed.stateMsgs.Keys)
    ensures multiset(Flat(StatusKeys, Split(p, feed, order))) == multiset(feed.syncStates.Keys)
    ensures forall part :: part in Split(p, feed, order) ==> Carries(feed, part) && BlockIs(p, feed, part.backend, part.blockNumber)
  {
    MessagesKept(p, feed, order);
    StatusesKept(p, feed, order);
    PartsCarry(p, feed, order);
  }

  // The block, read off the feed's own headers.

  ghost predicate MessageHeader(p: Protocols, feed: Feed, b: Backend, key: string, h: Header) {
    key in feed.stateMsgs && p.SyncBackend(key) == Some(b) && feed.stateMsgs[key].header == h
  }

  ghost predicate StateHeader(p: Protocols, feed: Feed, b: Backend, key: string, h: Header) {
    key in feed.syncStates && p.SyncBackend(key) == Some(b) && Reports(feed.syncStates[key], h)
  }

  /**
   The largest number among the headers of the backend's messages; without messages, among
   the headers its states carry, whatever their kind; 0 only when none carries one.
   */
  ghost predicate BlockFromHeaders(p: Protocols, feed: Feed, b: Backend, block: u64) {
    if exists key, h :: MessageHeader(p, feed, b, key, h) then
      && (exists key, h :: MessageHeader(p, feed, b, key, h) && h.number == block)
      && (forall key, h :: MessageHeader(p, feed, b, key, h) ==> h.number <= block)
    else if exists key, h :: StateHeader(p, feed, b, key, h) then
      && (exists key, h :: StateHeader(p, feed, b, key, h) && h.number == block)
      && (forall key, h :: StateHeader(p, feed, b, key, h) ==> h.number <= block)
    else block == 0
  }

  lemma BlockMeans(p: Protocols, feed: Feed, b: Backend, block: u64)
    requires BlockIs(p, feed, b, block)
    ensures BlockFromHeaders(p, feed, b, block)
  {
    forall key, h | MessageHeader(p, feed, b, key, h) ensures h.number in HeaderNumbers(p, feed, b) {
    }
    forall n | n in HeaderNumbers(p, feed, b) ensures exists key, h :: MessageHeader(p, feed, b, key, h) && h.number == n {
      var key :| key in feed.stateMsgs && p.SyncBackend(key) == Some(b) && feed.stateMsgs[key].header.number == n;
      assert MessageHeader(p, feed, b, key, feed.stateMsgs[key].header);
    }
    forall key, h | StateHeader(p, feed, b, key, h) ensures h.number in SyncNumbers(p, feed, b, feed.syncStates.Keys) {
      assert SyncNumber(feed.syncStates[key]) == Some(h.number);
    }
    forall n | n in SyncNumbers(p, feed, b, feed.syncStates.Keys)
      ensures exists key, h :: StateHeader(p, feed, b, key, h) && h.number == n
    {
      var key :| key in feed.syncStates && p.SyncBackend(key) == Some(b) && SyncNumber(feed.syncStates[key]) == Some(n);
      assert StateHeader(p, feed, b, key, feed.syncStates[key].header);
    }
  }

  /** The statuses are those of the backend's states, each with the header its state carries. */
  ghost predicate StatusesReport(p: Protocols, feed: Feed, part: UpdatePartition) {
    && (forall key :: key in part.syncStatuses <==> key in feed.syncStates && p.SyncBackend(key) == Some(part.backend))
    && (forall key, h :: key in part.syncStatuses ==>
          (part.syncStatuses[key].block == Some(h) <==> Reports(feed.syncStates[key], h)))
  }

  /** The messages are the feed's for the backend; Started stands for a state that is missing. */
  ghost predicate MessagesReport(p: Protocols, feed: Feed, part: UpdatePartition) {
    forall m :: m in part.messages ==>
      && m.protocol in feed.stateMsgs && p.SyncBackend(m.protocol) == Some(part.backend)
      && m.header == feed.stateMsgs[m.protocol].header && m.body == feed.stateMsgs[m.protocol].body
      && (m.syncState == if m.protocol in feed.syncStates then feed.syncStates[m.protocol] else Started)
  }

  lemma PartStatusesReport(p: Protocols, feed: Feed, order: seq<string>, b: Backend)
    requires Enumerates(order, feed.stateMsgs.Keys)
    ensures StatusesReport(p, feed, PartFor(p, feed, order, b))
  {
    var part := PartFor(p, feed, order, b);
    forall key, h | key in part.syncStatuses
      ensures part.syncStatuses[key].block == Some(h) <==> Reports(feed.syncStates[key], h)
    {
      StatusDeterminesState(feed.syncStates[key], Started);
    }
  }

  lemma PartMessagesReport(p: Protocols, feed: Feed, order: seq<string>, b: Backend)
    requires Enumerates(order, feed.stateMsgs.Keys)
    ensures MessagesReport(p, feed, PartFor(p, feed, order, b))
  {
    var ids := Visited(order, Owned(MessageOwner(p, feed), [b]));
    var part := PartFor(p, feed, order, b);
    forall i | 0 <= i < |part.messages|
      ensures part.messages[i] == MessageOf(feed, ids[i]) && p.SyncBackend(ids[i]) == Some(b)
    {
    }
  }

  /** Each partition's block, statuses and messages are read off the feed's own headers and states. */
  lemma PartitionReportsFeed(p: Protocols, feed: Feed, order: seq<string>, part: UpdatePartition)
    requires Enumerates(order, feed.stateMsgs.Keys)
    requires Classified(p, feed.syncStates.Keys) && Classified(p, feed.stateMsgs.Keys)
    requires part in Split(p, feed, order)
    ensures BlockFromHeaders(p, feed, part.backend, part.blockNumber)
    ensures StatusesReport(p, feed, part) && MessagesReport(p, feed, part)
  {
    CollectIncreasing(Parts(p, feed, order), BACKENDS);
    assert part == PartFor(p, feed, order, part.backend);
    BlockMeans(p, feed, part.backend, BlockOf(p, feed, part.backend));
    PartStatusesReport(p, feed, order, part.backend);
    PartMessagesReport(p, feed, order, part.backend);
  }

  // Independence from the iteration order.

  /** Equal up to the order of the messages. */
  ghost predicate SameUpToOrder(a: UpdatePartition, b: UpdatePartition) {
    a.(messages := []) == b.(messages := []) && multiset(a.messages) == multiset(b.messages)
  }

  lemma MetPermutes(p: Protocols, feed: Feed, b: Backend, one: seq<string>, two: seq<string>)
    requires Enumerates(one, feed.stateMsgs.Keys) && Enumerates(two, feed.stateMsgs.Keys)
    ensures multiset(Met(p, feed, b, one)) == multiset(Met(p, feed, b, two))
  {
    var mine := Owned(MessageOwner(p, feed), [b]);
    VisitedOnce(one, mine);
    VisitedOnce(two, mine);
    MetWithin(p, feed, b, one, two);
    MetWithin(p, feed, b, two, one);
    MetOnce(p, feed, b, one);
    MetOnce(p, feed, b, two);
    SameElements(Met(p, feed, b, one), Met(p, feed, b, two));
  }

  lemma MetOnce(p: Protocols, feed: Feed, b: Backend, order: seq<string>)
    requires Enumerates(order, feed.stateMsgs.Keys)
    ensures NoRepeats(Met(p, feed, b, order))
  {
    VisitedOnce(order, Owned(MessageOwner(p, feed), [b]));
    var met := Met(p, feed, b, order);
    forall i, j | 0 <= i < j < |met| ensures met[i] != met[j] {
      assert met[i].protocol != met[j].protocol;
    }
  }

  lemma MetWithin(p: Protocols, feed: Feed, b: Backend, one: seq<string>, two: seq<string>)
    requires Enumerates(one, feed.stateMsgs.Keys) && Enumerates(two, feed.stateMsgs.Keys)
    ensures forall i :: 0 <= i < |Met(p, feed, b, one)| ==> Met(p, feed, b, one)[i] in Met(p, feed, b, two)
  {
    var mine := Owned(MessageOwner(p, feed), [b]);
    VisitedOnce(two, mine);
    var ids, others := Visited(one, mine), Visited(two, mine);
    forall i | 0 <= i < |ids| ensures Met(p, feed, b, one)[i] in Met(p, feed, b, two) {
      assert ids[i] in Elements(two);
      assert ids[i] in others;
      var j :| 0 <= j < |others| && others[j] == ids[i];
      assert Met(p, feed, b, two)[j] == Met(p, feed, b, one)[i];
    }
  }

  lemma {:induction false} CollectSame(one: Backend -> UpdatePartition, two: Backend -> UpdatePartition,
                                       backends: seq<Backend>)
    requires forall b :: SameUpToOrder(one(b), two(b))
    ensures |Collect(one, backends)| == |Collect(two, backends)|
    ensures forall i :: 0 <= i < |Collect(one, backends)| ==>
      SameUpToOrder(Collect(one, backends)[i], Collect(two, backends)[i])
    decreases |backends|
  {
    if backends != [] {
      CollectSame(one, two, backends[..|backends| - 1]);
      var last := backends[|backends| - 1];
      assert one(last).messages == [] <==> two(last).messages == [] by {
        assert |multiset(one(last).messages)| == |multiset(two(last).messages)|;
      }
    }
  }

  /** Two runs over one feed differ at most in the order of messages inside a partition. */
  lemma OrderIrrelevant(p: Protocols, feed: Feed, one: seq<string>, two: seq<string>)
    requires Enumerates(one, feed.stateMsgs.Keys) && Enumerates(two, feed.stateMsgs.Keys)
    ensures |Split(p, feed, one)| == |Split(p, feed, two)|
    ensures forall i :: 0 <= i < |Split(p, feed, one)| ==> SameUpToOrder(Split(p, feed, one)[i], Split(p, feed, two)[i])
  {
    forall b ensures SameUpToOrder(Parts(p, feed, one)(b), Parts(p, feed, two)(b)) {
      MetPermutes(p, feed, b, one, two);
    }
    CollectSame(Parts(p, feed, one), Parts(p, feed, two), BACKENDS);
  }

  // Native completeness.

  lemma {:induction false} NoNative(parts: seq<UpdatePartition>)
    requires forall i :: 0 <= i < |parts| ==> parts[i].backend != Native
    ensures UpdateComplete(parts) == None
    decreases |parts|
  {
    if parts != [] {
      NoNative(parts[1..]);
    }
  }

  lemma CollectedComplete(part: Backend -> UpdatePartition)
    requires forall b :: part(b).backend == b
    ensures UpdateComplete(Collect(part, BACKENDS)) ==
      if part(Native).IsEmpty() then None
      else CompleteBlock(part(Native).blockNumber, part(Native).messages, part(Native).syncStatuses)
  {
    var parts := Collect(part, BACKENDS);
    CollectIncreasing(part, BACKENDS);
    if !part(Native).IsEmpty() {
      EveryBackend(Native);
      CollectHas(part, BACKENDS, Native);
      var i :| 0 <= i < |parts| && parts[i] == part(Native);
      assert i == 0;
    } else {
      NoNative(parts);
    }
  }

  ghost predicate ReadyAt(state: SynchronizerState, block: u64, hash: string) {
    state.Ready? && At(block, hash, state.header)
  }

  /** Every native protocol of the feed is Ready at the block under the hash, and there is one. */
  ghost predicate NativeReadyAt(p: Protocols, feed: Feed, block: u64, hash: string) {
    && (forall key :: key in feed.stateMsgs && p.SyncBackend(key) == Some(Native) ==>
          At(block, hash, feed.stateMsgs[key].header) && ReadyAt(SyncStateOf(feed, key), block, hash))
    && (forall key :: key in feed.syncStates && p.SyncBackend(key) == Some(Native) ==>
          ReadyAt(feed.syncStates[key], block, hash))
    && exists key :: key in feed.stateMsgs.Keys + feed.syncStates.Keys && p.SyncBackend(key) == Some(Native)
  }

  /** The native partition holds exactly the native messages. */
  lemma NativeMessages(p: Protocols, feed: Feed, order: seq<string>)
    requires Enumerates(order, feed.stateMsgs.Keys)
    ensures var part := PartFor(p, feed, order, Native);
      && (forall key :: key in feed.stateMsgs && p.SyncBackend(key) == Some(Native) ==>
            MessageOf(feed, key) in part.messages)
      && forall i :: 0 <= i < |part.messages| ==>
           var key := part.messages[i].protocol;
           key in feed.stateMsgs && p.SyncBackend(key) == Some(Native) && part.messages[i] == MessageOf(feed, key)
  {
    var part := PartFor(p, feed, order, Native);
    var mine := Owned(MessageOwner(p, feed), [Native]);
    VisitedOnce(order, mine);
    var ids := Visited(order, mine);
    forall key | key in feed.stateMsgs && p.SyncBackend(key) == Some(Native)
      ensures MessageOf(feed, key) in part.messages
    {
      assert key in Elements(order);
      assert key in ids;
      var i :| 0 <= i < |ids| && ids[i] == key;
      assert part.messages[i] == MessageOf(feed, key);
    }
    assert forall i :: 0 <= i < |ids| ==> p.SyncBackend(ids[i]) == Some(Native);
  }

  lemma AllImpliesReady(p: Protocols, feed: Feed, order: seq<string>, block: u64, hash: string)
    requires Enumerates(order, feed.stateMsgs.Keys)
    requires var part := PartFor(p, feed, order, Native);
      AllReadyAt(block, hash, part.messages, part.syncStatuses)
      && (part.messages != [] || part.syncStatuses != map[])
    ensures NativeReadyAt(p, feed, block, hash)
  {
    var part := PartFor(p, feed, order, Native);
    NativeMessages(p, feed, order);
    forall key | key in feed.stateMsgs && p.SyncBackend(key) == Some(Native)
      ensures MessageAt(block, hash, MessageOf(feed, key))
    {
      var i :| 0 <= i < |part.messages| && part.messages[i] == MessageOf(feed, key);
    }
    forall key | key in feed.syncStates && p.SyncBackend(key) == Some(Native)
      ensures ReadyAt(feed.syncStates[key], block, hash)
    {
      assert StatusAt(block, hash, part.syncStatuses[key]);
    }
    if part.messages != [] {
      assert part.messages[0].protocol in feed.stateMsgs.Keys + feed.syncStates.Keys;
    } else {
      var key :| key in part.syncStatuses;
      assert key in feed.stateMsgs.Keys + feed.syncStates.Keys;
    }
  }

  lemma ReadyImpliesAll(p: Protocols, feed: Feed, order: seq<string>, block: u64, hash: string)
    requires Enumerates(order, feed.stateMsgs.Keys)
    requires NativeReadyAt(p, feed, block, hash)
    ensures var part := PartFor(p, feed, order, Native);
      && part.blockNumber == block
      && AllReadyAt(block, hash, part.messages, part.syncStatuses)
      && (part.messages != [] || part.syncStatuses != map[])
  {
    var part := PartFor(p, feed, order, Native);
    NativeMessages(p, feed, order);
    ReadyBlock(p, feed, block, hash);
    var key :| key in feed.stateMsgs.Keys + feed.syncStates.Keys && p.SyncBackend(key) == Some(Native);
    if key in feed.stateMsgs {
      assert MessageOf(feed, key) in part.messages;
    } else {
      assert key in part.syncStatuses;
    }
  }

  lemma ReadyBlock(p: Protocols, feed: Feed, block: u64, hash: string)
    requires NativeReadyAt(p, feed, block, hash)
    ensures BlockOf(p, feed, Native) == block
  {
    var key :| key in feed.stateMsgs.Keys + feed.syncStates.Keys && p.SyncBackend(key) == Some(Native);
    if key in feed.stateMsgs {
      assert feed.stateMsgs[key].header.number in HeaderNumbers(p, feed, Native);
    } else {
      assert SyncNumber(feed.syncStates[key]).value in SyncNumbers(p, feed, Native, feed.syncStates.Keys);
    }
    assert BlockIs(p, feed, Native, block);
    BlockUnique(p, feed, Native, block, BlockOf(p, feed, Native));
  }

  /**
   The update reports native block `block` complete exactly when every native message, its
   sync state and every native status of the feed is Ready at that block under one hash, with
   no partial-block index.
   */
  lemma FeedCompleteExact(p: Protocols, feed: Feed, order: seq<string>, block: u64)
    requires Enumerates(order, feed.stateMsgs.Keys)
    ensures UpdateComplete(Split(p, feed, order)) == Some(block)
       <==> exists hash :: NativeReadyAt(p, feed, block, hash)
  {
    var part := PartFor(p, feed, order, Native);
    forall b ensures Parts(p, feed, order)(b).backend == b {}
    CollectedComplete(Parts(p, feed, order));
    CompleteBlockExact(part.blockNumber, part.messages, part.syncStatuses);
    if hash :| NativeReadyAt(p, feed, block, hash) {
      ReadyImpliesAll(p, feed, order, block, hash);
    }
    if UpdateComplete(Split(p, feed, order)) == Some(block) {
      var hash :| AllReadyAt(part.blockNumber, hash, part.messages, part.syncStatuses);
      AllImpliesReady(p, feed, order, block, hash);
    }
  }
}
