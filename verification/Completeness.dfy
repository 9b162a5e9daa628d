/** The whole-block completeness test that drives native readiness. */
module Completeness {
  import opened Wrappers
  import opened Wire
  import opened Strings

  /** One header checked against the block and the hash seen so far; None rejects it. */
  function Witness(block: u64, expected: Option<string>, h: Header): Option<Option<string>> {
    if h.number != block || h.partialBlockIndex.Some? then None
    else if expected.Some? then (if expected.value == h.hash then Some(expected) else None)
    else Some(Some(h.hash))
  }

  function WitnessMessage(block: u64, expected: Option<string>, m: ProtocolMessage): Option<Option<string>> {
    match Witness(block, expected, m.header)
    case None => None
    case Some(seen) => if m.syncState.Ready? then Witness(block, seen, m.syncState.header) else None
  }

  function WitnessStatus(block: u64, expected: Option<string>, status: SyncStatus): Option<Option<string>> {
    if status.kind != StatusReady || status.block.None? then None
    else Witness(block, expected, status.block.value)
  }

  function WitnessMessages(block: u64, expected: Option<string>, ms: seq<ProtocolMessage>): Option<Option<string>>
    decreases |ms|
  {
    if ms == [] then Some(expected)
    else
      match WitnessMessage(block, expected, ms[0])
      case None => None
      case Some(seen) => WitnessMessages(block, seen, ms[1..])
  }

  function WitnessStatuses(block: u64, expected: Option<string>, statuses: map<string, SyncStatus>, keys: seq<string>)
    : Option<Option<string>>
    requires forall i :: 0 <= i < |keys| ==> keys[i] in statuses
    decreases |keys|
  {
    if keys == [] then Some(expected)
    else
      match WitnessStatus(block, expected, statuses[keys[0]])
      case None => None
      case Some(seen) => WitnessStatuses(block, seen, statuses, keys[1..])
  }

  function CompleteBlock(block: u64, ms: seq<ProtocolMessage>, statuses: map<string, SyncStatus>): Option<u64> {
    if ms == [] && statuses == map[] then None
    else
      match WitnessMessages(block, None, ms)
      case None => None
      case Some(seen) =>
        if WitnessStatuses(block, seen, statuses, SortedKeys(statuses.Keys)).Some? then Some(block) else None
  }

  method CompletePartitionBlock(block: u64, messages: seq<ProtocolMessage>, statuses: map<string, SyncStatus>)
    returns (r: Option<u64>)
    ensures r == CompleteBlock(block, messages, statuses)
  {
    if messages == [] && statuses == map[] {
      return None;
    }
    var expected: Option<string> := None;
    for i := 0 to |messages|
      invariant WitnessMessages(block, None, messages) == WitnessMessages(block, expected, messages[i..])
    {
      assert messages[i..][0] == messages[i] && messages[i..][1..] == messages[i + 1..];
      var seen := WitnessMessage(block, expected, messages[i]);
      if seen.None? {
        return None;
      }
      expected := seen.value;
    }
    var keys := SortedKeys(statuses.Keys);
    ghost var first := expected;
    for i := 0 to |keys|
      invariant WitnessStatuses(block, first, statuses, keys)
             == WitnessStatuses(block, expected, statuses, keys[i..])
    {
      assert keys[i..][0] == keys[i] && keys[i..][1..] == keys[i + 1..];
      var seen := WitnessStatus(block, expected, statuses[keys[i]]);
      if seen.None? {
        return None;
      }
      expected := seen.value;
    }
    return Some(block);
  }

  /** `BroadcasterUpdateMessage::complete_native_block`: the first native partition decides. */
  function UpdateComplete(parts: seq<UpdatePartition>): Option<u64>
    decreases |parts|
  {
    if parts == [] then None
    else if parts[0].backend == Native
    then CompleteBlock(parts[0].blockNumber, parts[0].messages, parts[0].syncStatuses)
    else UpdateComplete(parts[1..])
  }

  // What completeness means.

  predicate At(block: u64, hash: string, h: Header) {
    h.number == block && h.hash == hash && h.partialBlockIndex.None?
  }

  predicate MessageAt(block: u64, hash: string, m: ProtocolMessage) {
    At(block, hash, m.header) && m.syncState.Ready? && At(block, hash, m.syncState.header)
  }

  predicate StatusAt(block: u64, hash: string, status: SyncStatus) {
    status.kind == StatusReady && status.block.Some? && At(block, hash, status.block.value)
  }

  ghost predicate AllReadyAt(block: u64, hash: string, ms: seq<ProtocolMessage>, statuses: map<string, SyncStatus>) {
    && (forall i :: 0 <= i < |ms| ==> MessageAt(block, hash, ms[i]))
    && forall key :: key in statuses ==> StatusAt(block, hash, statuses[key])
  }

  lemma {:induction false} MessagesAgree(block: u64, expected: Option<string>, ms: seq<ProtocolMessage>, hash: string)
    requires expected.Some? ==> expected.value == hash
    ensures (forall i :: 0 <= i < |ms| ==> MessageAt(block, hash, ms[i]))
       <==> (WitnessMessages(block, expected, ms).Some?
             && (ms != [] ==> WitnessMessages(block, expected, ms).value == Some(hash))
             && (ms == [] ==> WitnessMessages(block, expected, ms).value == expected))
    decreases |ms|
  {
    if ms != [] {
      var seen := WitnessMessage(block, expected, ms[0]);
      if seen.Some? {
        if seen.value == Some(hash) {
          MessagesAgree(block, seen.value, ms[1..], hash);
          assert forall i :: 0 < i < |ms| ==> ms[i] == ms[1..][i - 1];
        } else {
          HashKept(block, seen.value, ms[1..]);
        }
      }
    }
  }

  /** Once a hash is expected it stays the expected one. */
  lemma {:induction false} HashKept(block: u64, expected: Option<string>, ms: seq<ProtocolMessage>)
    requires expected.Some?
    ensures WitnessMessages(block, expected, ms).Some? ==> WitnessMessages(block, expected, ms).value == expected
    decreases |ms|
  {
    if ms != [] && WitnessMessage(block, expected, ms[0]).Some? {
      HashKept(block, expected, ms[1..]);
    }
  }

  ghost predicate StatusesAt(block: u64, hash: string, statuses: map<string, SyncStatus>, keys: seq<string>)
    requires forall i :: 0 <= i < |keys| ==> keys[i] in statuses
  {
    forall i :: 0 <= i < |keys| ==> StatusAt(block, hash, statuses[keys[i]])
  }

  lemma {:induction false} StatusesAgree(block: u64, hash: string, statuses: map<string, SyncStatus>,
                                         keys: seq<string>)
    requires forall i :: 0 <= i < |keys| ==> keys[i] in statuses
    ensures StatusesAt(block, hash, statuses, keys) <==> WitnessStatuses(block, Some(hash), statuses, keys).Some?
    decreases |keys|
  {
    if keys != [] {
      StatusesAgree(block, hash, statuses, keys[1..]);
      assert forall i :: 0 < i < |keys| ==> keys[i] == keys[1..][i - 1];
    }
  }

  lemma FirstStatusDecides(block: u64, statuses: map<string, SyncStatus>, keys: seq<string>)
    requires forall i :: 0 <= i < |keys| ==> keys[i] in statuses
    requires keys != []
    ensures var first := statuses[keys[0]].block;
      WitnessStatuses(block, None, statuses, keys).Some?
      <==> (first.Some? && StatusesAt(block, first.value.hash, statuses, keys))
  {
    var status := statuses[keys[0]];
    if status.block.Some? {
      StatusesAgree(block, status.block.value.hash, statuses, keys[1..]);
      assert forall i :: 0 < i < |keys| ==> keys[i] == keys[1..][i - 1];
    }
  }

  lemma KeysCover(block: u64, hash: string, statuses: map<string, SyncStatus>, keys: seq<string>)
    requires Elements(keys) == statuses.Keys
    ensures forall i :: 0 <= i < |keys| ==> keys[i] in statuses
    ensures StatusesAt(block, hash, statuses, keys) <==> forall key :: key in statuses ==> StatusAt(block, hash, statuses[key])
  {
    assert forall i :: 0 <= i < |keys| ==> keys[i] in Elements(keys);
    assert forall key :: key in statuses ==> key in Elements(keys);
  }

  lemma CompleteWithMessages(block: u64, ms: seq<ProtocolMessage>, statuses: map<string, SyncStatus>)
    requires ms != []
    ensures CompleteBlock(block, ms, statuses).Some? <==> AllReadyAt(block, ms[0].header.hash, ms, statuses)
  {
    var keys, hash := SortedKeys(statuses.Keys), ms[0].header.hash;
    SortedKeysSorted(statuses.Keys);
    KeysCover(block, hash, statuses, keys);
    MessagesAgree(block, None, ms, hash);
    FirstHashExpected(block, ms);
    StatusesAgree(block, hash, statuses, keys);
  }

  lemma CompleteWithStatuses(block: u64, statuses: map<string, SyncStatus>) returns (key: string)
    requires statuses != map[]
    ensures key in statuses
    ensures CompleteBlock(block, [], statuses).Some?
       <==> (statuses[key].block.Some? && AllReadyAt(block, statuses[key].block.value.hash, [], statuses))
  {
    var keys := SortedKeys(statuses.Keys);
    SortedKeysSorted(statuses.Keys);
    key := LeastOf(statuses.Keys);
    assert keys[0] == key;
    if statuses[key].block.Some? {
      KeysCover(block, statuses[key].block.value.hash, statuses, keys);
    } else {
      KeysCover(block, "", statuses, keys);
    }
    FirstStatusDecides(block, statuses, keys);
  }

  /**
   A partition reports its block complete exactly when it has content and every message,
   every message's sync state and every status is Ready at that one block under one hash,
   with no partial-block index.
   */
  lemma CompleteBlockExact(block: u64, ms: seq<ProtocolMessage>, statuses: map<string, SyncStatus>)
    ensures CompleteBlock(block, ms, statuses) ==
      if (ms != [] || statuses != map[]) && (exists hash :: AllReadyAt(block, hash, ms, statuses)) then Some(block)
      else None
  {
    if ms != [] {
      CompleteWithMessages(block, ms, statuses);
      if hash :| AllReadyAt(block, hash, ms, statuses) {
        assert MessageAt(block, hash, ms[0]);
      }
    } else if statuses != map[] {
      var key := CompleteWithStatuses(block, statuses);
      if hash :| AllReadyAt(block, hash, ms, statuses) {
        assert StatusAt(block, hash, statuses[key]);
      }
    }
  }

  lemma FirstHashExpected(block: u64, ms: seq<ProtocolMessage>)
    requires ms != []
    ensures WitnessMessages(block, None, ms).Some? ==>
      WitnessMessages(block, None, ms).value == Some(ms[0].header.hash)
  {
    if WitnessMessage(block, None, ms[0]).Some? {
      HashKept(block, WitnessMessage(block, None, ms[0]).value, ms[1..]);
    }
  }
}
