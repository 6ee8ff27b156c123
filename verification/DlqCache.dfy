/** The byte-budgeted FIFO cache of raw messages kept for dead-letter publishing. */
module DlqCache {
  import opened Common

  type CacheKey = (TopicPartition, int)

  /** A raw record; an absent key or value weighs nothing. */
  datatype Message = Message(key: Option<seq<bv8>>, value: Option<seq<bv8>>)

  datatype Entry = Entry(key: CacheKey, message: Message)

  function PayloadBytes(payload: Option<seq<bv8>>): nat {
    if payload.None? then 0 else |payload.value|
  }

  function SizeOf(m: Message): nat { PayloadBytes(m.key) + PayloadBytes(m.value) }

  function Total(entries: seq<Entry>): nat {
    if entries == [] then 0 else SizeOf(entries[0].message) + Total(entries[1..])
  }

  function Find(entries: seq<Entry>, key: CacheKey): Option<Message> {
    if entries == [] then None
    else if entries[0].key == key then Some(entries[0].message)
    else Find(entries[1..], key)
  }

  function Remove(entries: seq<Entry>, key: CacheKey): seq<Entry> {
    if entries == [] then []
    else if entries[0].key == key then entries[1..]
    else [entries[0]] + Remove(entries[1..], key)
  }

  function Others(entries: seq<Entry>, tp: TopicPartition): seq<Entry> {
    if entries == [] then []
    else if entries[0].key.0 == tp then Others(entries[1..], tp)
    else [entries[0]] + Others(entries[1..], tp)
  }

  /** How many of the oldest entries must go so that `size` more bytes fit in `max`. */
  function Evictions(entries: seq<Entry>, size: nat, max: int): (n: nat)
    ensures n <= |entries|
  {
    if entries == [] || Total(entries) + size <= max then 0 else 1 + Evictions(entries[1..], size, max)
  }

  lemma {:induction false} RemoveTotal(entries: seq<Entry>, key: CacheKey)
    ensures Total(Remove(entries, key)) ==
            Total(entries) - (match Find(entries, key) case None => 0 case Some(m) => SizeOf(m))
    ensures Find(entries, key).Some? ==> SizeOf(Find(entries, key).value) <= Total(entries)
    ensures Find(entries, key).None? ==> Remove(entries, key) == entries
  {
    if entries != [] && entries[0].key != key {
      RemoveTotal(entries[1..], key);
      assert entries == [entries[0]] + entries[1..];
    }
  }

  lemma {:induction false} TotalAppend(entries: seq<Entry>, e: Entry)
    ensures Total(entries + [e]) == Total(entries) + SizeOf(e.message)
  {
    if entries == [] {
      assert [e][1..] == [];
    } else {
      assert (entries + [e])[1..] == entries[1..] + [e];
      TotalAppend(entries[1..], e);
    }
  }

  /** Evicting that many makes room, and evicting fewer would not. */
  lemma {:induction false} EvictionsAreFewest(entries: seq<Entry>, size: nat, max: int)
    requires size <= max
    ensures Total(entries[Evictions(entries, size, max)..]) + size <= max
    ensures forall n :: 0 <= n < Evictions(entries, size, max) ==> Total(entries[n..]) + size > max
  {
    if entries != [] && Total(entries) + size > max {
      EvictionsAreFewest(entries[1..], size, max);
      var k := Evictions(entries[1..], size, max);
      assert entries[1..][k..] == entries[k + 1..];
      forall n | 0 <= n < k + 1 ensures Total(entries[n..]) + size > max {
        if n > 0 {
          assert entries[1..][n - 1..] == entries[n..];
        } else {
          assert entries[0..] == entries;
        }
      }
    } else {
      assert entries[0..] == entries;
    }
  }

  /** What caching a message leaves in the cache. */
  function Cached(entries: seq<Entry>, shouldCache: bool, max: int, key: CacheKey, m: Message): seq<Entry> {
    var rest := Remove(entries, key);
    if !shouldCache || (max > 0 && SizeOf(m) > max) then rest
    else if max > 0 then rest[Evictions(rest, SizeOf(m), max)..] + [Entry(key, m)]
    else rest + [Entry(key, m)]
  }

  class MessageCache {
    var entries: seq<Entry>
    var sizeBytes: int
    const maxBytes: int

    /** The byte counter is exact, and within a positive budget. */
    ghost predicate Valid()
      reads this
    {
      sizeBytes == Total(entries) && (maxBytes > 0 ==> sizeBytes <= maxBytes)
    }

    constructor (maxBytes: int)
      ensures Valid() && entries == [] && this.maxBytes == maxBytes
    {
      this.maxBytes := maxBytes;
      entries, sizeBytes := [], 0;
    }

    method PopCachedMessage(key: CacheKey) returns (message: Option<Message>)
      requires Valid()
      modifies this
      ensures Valid() && message == Find(old(entries), key) && entries == Remove(old(entries), key)
    {
      message := Find(entries, key);
      RemoveTotal(entries, key);
      if message.None? {
        return;
      }
      // the clamp at zero never takes effect: the counter covers the entry
      sizeBytes := if sizeBytes - SizeOf(message.value) < 0 then 0 else sizeBytes - SizeOf(message.value);
      entries := Remove(entries, key);
    }

    /** Caches the message, evicting the fewest oldest entries that make room for it. */
    method CacheMessageForDlq(shouldCache: bool, key: CacheKey, m: Message)
      requires Valid()
      modifies this
      ensures Valid() && entries == Cached(old(entries), shouldCache, maxBytes, key, m)
    {
      var _ := PopCachedMessage(key);
      if !shouldCache {
        return;
      }
      var size := SizeOf(m);
      if maxBytes > 0 && size > maxBytes {
        return;
      }
      ghost var rest := entries;
      while entries != [] && maxBytes > 0 && sizeBytes + size > maxBytes
        invariant Valid()
        invariant |entries| <= |rest| && entries == rest[|rest| - |entries|..]
        invariant maxBytes > 0 ==>
                    |rest| - |entries| + Evictions(entries, size, maxBytes) == Evictions(rest, size, maxBytes)
        invariant maxBytes <= 0 ==> entries == rest
        decreases |entries|
      {
        var oldest := SizeOf(entries[0].message);
        sizeBytes := if sizeBytes - oldest < 0 then 0 else sizeBytes - oldest;
        entries := entries[1..];
      }
      TotalAppend(entries, Entry(key, m));
      entries := entries + [Entry(key, m)];
      sizeBytes := sizeBytes + size;
    }

    method DropPartitionMessages(tp: TopicPartition)
      requires Valid()
      modifies this
      ensures Valid() && entries == Others(old(entries), tp)
    {
      var keys := KeysOf(entries, tp);
      RemoveAllIsOthers(entries, tp);
      var i := 0;
      assert keys[0..] == keys;
      while i < |keys|
        invariant 0 <= i <= |keys|
        invariant Valid()
        invariant RemoveAll(old(entries), keys) == RemoveAll(entries, keys[i..])
      {
        assert keys[i..][1..] == keys[i + 1..];
        var _ := PopCachedMessage(keys[i]);
        i := i + 1;
      }
    }
  }

  function KeysOf(entries: seq<Entry>, tp: TopicPartition): seq<CacheKey> {
    if entries == [] then []
    else if entries[0].key.0 == tp then [entries[0].key] + KeysOf(entries[1..], tp)
    else KeysOf(entries[1..], tp)
  }

  function RemoveAll(entries: seq<Entry>, keys: seq<CacheKey>): seq<Entry>
    decreases |keys|
  {
    if keys == [] then entries else RemoveAll(Remove(entries, keys[0]), keys[1..])
  }

  lemma {:induction false} KeysBelong(entries: seq<Entry>, tp: TopicPartition)
    ensures forall i :: 0 <= i < |KeysOf(entries, tp)| ==> KeysOf(entries, tp)[i].0 == tp
  {
    if entries != [] {
      KeysBelong(entries[1..], tp);
    }
  }

  lemma {:induction false} RemoveAllPasses(e: Entry, rest: seq<Entry>, keys: seq<CacheKey>)
    requires forall i :: 0 <= i < |keys| ==> keys[i] != e.key
    ensures RemoveAll([e] + rest, keys) == [e] + RemoveAll(rest, keys)
    decreases |keys|
  {
    if keys != [] {
      assert ([e] + rest)[1..] == rest;
      RemoveAllPasses(e, Remove(rest, keys[0]), keys[1..]);
    }
  }

  /** Popping every key of the partition leaves exactly the other partitions' entries, in order. */
  lemma {:induction false} RemoveAllIsOthers(entries: seq<Entry>, tp: TopicPartition)
    ensures RemoveAll(entries, KeysOf(entries, tp)) == Others(entries, tp)
  {
    if entries != [] {
      RemoveAllIsOthers(entries[1..], tp);
      var keys := KeysOf(entries[1..], tp);
      if entries[0].key.0 == tp {
        assert ([entries[0].key] + keys)[1..] == keys;
      } else {
        KeysBelong(entries[1..], tp);
        RemoveAllPasses(entries[0], entries[1..], keys);
        assert entries == [entries[0]] + entries[1..];
      }
    }
  }

  // ----- whole runs

  datatype Op =
    | Cache(shouldCache: bool, key: CacheKey, message: Message)
    | Pop(key: CacheKey)
    | DropPartition(tp: TopicPartition)

  function Run(entries: seq<Entry>, ops: seq<Op>, max: int): seq<Entry>
    decreases |ops|
  {
    if ops == [] then entries
    else
      var next := match ops[0]
        case Cache(should, key, m) => Cached(entries, should, max, key, m)
        case Pop(key) => Remove(entries, key)
        case DropPartition(tp) => Others(entries, tp);
      Run(next, ops[1..], max)
  }

  lemma {:induction false} OthersTotal(entries: seq<Entry>, tp: TopicPartition)
    ensures Total(Others(entries, tp)) <= Total(entries)
  {
    if entries != [] {
      OthersTotal(entries[1..], tp);
    }
  }

  lemma CachedFits(entries: seq<Entry>, should: bool, max: int, key: CacheKey, m: Message)
    requires max > 0 && Total(entries) <= max
    ensures Total(Cached(entries, should, max, key, m)) <= max
  {
    RemoveTotal(entries, key);
    var rest := Remove(entries, key);
    if should && SizeOf(m) <= max {
      var kept := rest[Evictions(rest, SizeOf(m), max)..];
      EvictionsAreFewest(rest, SizeOf(m), max);
      TotalAppend(kept, Entry(key, m));
    }
  }

  /** Over every sequence of operations the cached bytes stay within a positive budget. */
  lemma {:induction false} AlwaysWithinBudget(entries: seq<Entry>, ops: seq<Op>, max: int)
    requires max > 0 && Total(entries) <= max
    ensures Total(Run(entries, ops, max)) <= max
    decreases |ops|
  {
    if ops != [] {
      match ops[0] {
        case Cache(should, key, m) =>
          CachedFits(entries, should, max, key, m);
          AlwaysWithinBudget(Cached(entries, should, max, key, m), ops[1..], max);
        case Pop(key) =>
          RemoveTotal(entries, key);
          AlwaysWithinBudget(Remove(entries, key), ops[1..], max);
        case DropPartition(tp) =>
          OthersTotal(entries, tp);
          AlwaysWithinBudget(Others(entries, tp), ops[1..], max);
      }
    }
  }

  // ----- what can be found in the cache

  ghost predicate DistinctKeys(entries: seq<Entry>) {
    forall i, j :: 0 <= i < j < |entries| ==> entries[i].key != entries[j].key
  }

  ghost predicate Holds(entries: seq<Entry>, key: CacheKey) {
    exists i :: 0 <= i < |entries| && entries[i].key == key
  }

  lemma {:induction false} FindAt(entries: seq<Entry>, i: nat)
    requires DistinctKeys(entries) && i < |entries|
    ensures Find(entries, entries[i].key) == Some(entries[i].message)
  {
    if i > 0 {
      assert entries[0].key != entries[i].key;
      FindAt(entries[1..], i - 1);
    }
  }

  lemma {:induction false} FindHolds(entries: seq<Entry>, key: CacheKey)
    ensures Find(entries, key).Some? <==> Holds(entries, key)
  {
    if entries != [] {
      FindHolds(entries[1..], key);
      if entries[0].key != key && Holds(entries, key) {
        var i :| 0 <= i < |entries| && entries[i].key == key;
        assert entries[1..][i - 1].key == key;
      }
      if Holds(entries[1..], key) {
        var i :| 0 <= i < |entries[1..]| && entries[1..][i].key == key;
        assert entries[i + 1].key == key;
      }
    }
  }

  lemma {:induction false} FindAppend(entries: seq<Entry>, e: Entry, key: CacheKey)
    ensures Find(entries + [e], key) ==
            if Find(entries, key).Some? then Find(entries, key) else if e.key == key then Some(e.message) else None
  {
    if entries == [] {
      assert [e][1..] == [];
      assert entries + [e] == [e];
    } else {
      assert (entries + [e])[1..] == entries[1..] + [e];
      FindAppend(entries[1..], e, key);
    }
  }

  /** Popping an entry forgets it and no other; the keys stay distinct. */
  lemma {:induction false} PopForgetsOne(entries: seq<Entry>, key: CacheKey, other: CacheKey)
    requires DistinctKeys(entries)
    ensures DistinctKeys(Remove(entries, key))
    ensures Find(Remove(entries, key), other) == if other == key then None else Find(entries, other)
  {
    if entries != [] {
      var e, rest := entries[0], entries[1..];
      PopForgetsOne(rest, key, other);
      PopForgetsOne(rest, key, e.key);
      FindHolds(rest, e.key);
      FindHolds(Remove(rest, key), e.key);
      HeadIsUnique(entries);
      assert ([e] + Remove(rest, key))[1..] == Remove(rest, key);
      if e.key != key {
        ConsDistinct(e, Remove(rest, key));
      }
    }
  }

  lemma HeadIsUnique(entries: seq<Entry>)
    requires DistinctKeys(entries) && entries != []
    ensures !Holds(entries[1..], entries[0].key)
  {
    assert forall i :: 0 <= i < |entries[1..]| ==> entries[1..][i] == entries[i + 1];
  }

  lemma ConsDistinct(e: Entry, rest: seq<Entry>)
    requires DistinctKeys(rest) && !Holds(rest, e.key)
    ensures DistinctKeys([e] + rest)
  {
    var all := [e] + rest;
    forall i, j | 0 <= i < j < |all| ensures all[i].key != all[j].key {
      assert all[j] == rest[j - 1] && (i > 0 ==> all[i] == rest[i - 1]);
    }
  }

  /** Dropping a partition forgets its entries and no others; the keys stay distinct. */
  lemma {:induction false} DropForgetsPartition(entries: seq<Entry>, tp: TopicPartition, other: CacheKey)
    requires DistinctKeys(entries)
    ensures DistinctKeys(Others(entries, tp))
    ensures Find(Others(entries, tp), other) == if other.0 == tp then None else Find(entries, other)
  {
    if entries != [] {
      var e, rest := entries[0], entries[1..];
      DropForgetsPartition(rest, tp, other);
      DropForgetsPartition(rest, tp, e.key);
      FindHolds(rest, e.key);
      FindHolds(Others(rest, tp), e.key);
      HeadIsUnique(entries);
      assert ([e] + Others(rest, tp))[1..] == Others(rest, tp);
      if e.key.0 != tp {
        ConsDistinct(e, Others(rest, tp));
      }
    }
  }

  /** Evicting the oldest entries changes no other. */
  lemma EvictionKeepsOthers(entries: seq<Entry>, n: nat, key: CacheKey)
    requires DistinctKeys(entries) && n <= |entries|
    ensures DistinctKeys(entries[n..])
    ensures Find(entries[n..], key).None? || Find(entries[n..], key) == Find(entries, key)
  {
    FindHolds(entries[n..], key);
    if Holds(entries[n..], key) {
      var i :| 0 <= i < |entries[n..]| && entries[n..][i].key == key;
      FindAt(entries[n..], i);
      assert entries[n..][i] == entries[n + i];
      FindAt(entries, n + i);
    }
  }

  /** The bytes of the key and the value, an absent one counting nothing. */
  function Bytes(m: Message): nat {
    (match m.key case None => 0 case Some(k) => |k|) + (match m.value case None => 0 case Some(v) => |v|)
  }

  /**
   After caching, the message is found exactly when payloads are cached and its bytes fit the
   budget, if there is one. Every other entry is found unchanged or was evicted, and none is
   evicted without need.
   */
  lemma CachedIsFound(entries: seq<Entry>, shouldCache: bool, max: int, key: CacheKey, m: Message, other: CacheKey)
    requires DistinctKeys(entries) && other != key
    ensures var after := Cached(entries, shouldCache, max, key, m);
            && DistinctKeys(after)
            && Find(after, key) == (if shouldCache && (max <= 0 || Bytes(m) <= max) then Some(m) else None)
            && (Find(after, other).None? || Find(after, other) == Find(entries, other))
            && (!shouldCache || max <= 0 || Bytes(m) > max || Total(entries) + Bytes(m) <= max ==>
                  Find(after, other) == Find(entries, other))
  {
    var rest := Remove(entries, key);
    PopForgetsOne(entries, key, other);
    PopForgetsOne(entries, key, key);
    RemoveTotal(entries, key);
    if shouldCache && (max <= 0 || SizeOf(m) <= max) {
      var n := if max > 0 then Evictions(rest, SizeOf(m), max) else 0;
      var kept := rest[n..];
      EvictionKeepsOthers(rest, n, other);
      EvictionKeepsOthers(rest, n, key);
      FindAppend(kept, Entry(key, m), key);
      FindAppend(kept, Entry(key, m), other);
      FindHolds(kept, key);
      AppendDistinct(kept, Entry(key, m));
      assert n == 0 ==> kept == rest;
      assert Cached(entries, shouldCache, max, key, m) == kept + [Entry(key, m)];
    }
  }

  lemma AppendDistinct(entries: seq<Entry>, e: Entry)
    requires DistinctKeys(entries) && !Holds(entries, e.key)
    ensures DistinctKeys(entries + [e])
  {
  }

  /** Over every sequence of operations there is one entry per key. */
  lemma {:induction false} AlwaysOneEntryPerKey(entries: seq<Entry>, ops: seq<Op>, max: int)
    requires DistinctKeys(entries)
    ensures DistinctKeys(Run(entries, ops, max))
    decreases |ops|
  {
    if ops != [] {
      match ops[0] {
        case Cache(should, key, m) =>
          CachedIsFound(entries, should, max, key, m, (key.0, key.1 + 1));
          AlwaysOneEntryPerKey(Cached(entries, should, max, key, m), ops[1..], max);
        case Pop(key) =>
          PopForgetsOne(entries, key, key);
          AlwaysOneEntryPerKey(Remove(entries, key), ops[1..], max);
        case DropPartition(tp) =>
          DropForgetsPartition(entries, tp, (tp, 0));
          AlwaysOneEntryPerKey(Others(entries, tp), ops[1..], max);
      }
    }
  }
}
