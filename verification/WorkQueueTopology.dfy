/** The mutable queue topology, proved against TopologyState. */
module WorkQueueTopologies {
  import opened Common
  import opened TopologyState

  class WorkQueueTopology {
    var owned: set<TopicPartition>
    var queues: Queues
    var runnable: seq<QueueKey>
    var active: set<QueueKey>
    var heads: Heads
    var byHead: HeadIndex

    ghost function State(): Topology
      reads this
    {
      Topology(owned, queues, runnable, active, heads, byHead)
    }

    constructor ()
      ensures State() == EMPTY && Agree(State())
    {
      owned, queues, runnable, active, heads, byHead := {}, map[], [], {}, map[], map[];
    }

    method AssignPartition(tp: TopicPartition)
      modifies this
      ensures State() == Assign(old(State()), tp)
    {
      owned := owned + {tp};
      queues := map k | k in queues && k.0 != tp :: queues[k];
    }

    /** Drops the partition's queues and index entries and reports how many items were queued. */
    method RevokePartition(tp: TopicPartition) returns (removed: nat)
      requires Inverse(heads, byHead)
      modifies this
      ensures State() == Revoke(old(State()), tp)
      ensures forall deferred :: Good(old(State()), deferred) ==> Good(State(), deferred - KeysOf(old(queues), tp))
      ensures removed == Total(map k | k in old(queues) && k.0 == tp :: old(queues)[k])
    {
      forall deferred | Good(State(), deferred) {
        RevokeKeeps(State(), deferred, tp);
      }
      var mine := map k | k in queues && k.0 == tp :: queues[k];
      removed := CountQueued(mine);
      DeactivateAll(KeysOf(queues, tp));
      owned := owned - {tp};
      queues := map k | k in queues && k.0 != tp :: queues[k];
    }

    method DeactivateAll(keys: set<QueueKey>)
      requires Inverse(heads, byHead)
      modifies this
      ensures State() == DropKeys(old(State()), keys)
    {
      ghost var before := State();
      DropNone(before);
      ghost var done: set<QueueKey> := {};
      var left := keys;
      while left != {}
        invariant done + left == keys && State() == DropKeys(before, done)
        decreases left
      {
        EmptyOrInhabited(left);
        var k: QueueKey :| k in left;
        DropOne(before, done, k);
        DeactivateQueueKey(k);
        done, left := done + {k}, left - {k};
      }
    }

    method DeactivateQueueKey(k: QueueKey)
      modifies this
      ensures State() == Deactivate(old(State()), k)
    {
      active := active - {k};
      if k in heads {
        byHead := byHead - {(k.0, heads[k])};
      }
      heads := heads - {k};
      runnable := Without(runnable, k);
    }

    method ActivateQueueKey(k: QueueKey)
      modifies this
      ensures State() == Activate(old(State()), k)
    {
      if k !in active {
        runnable := Appended(runnable, k);
        active := active + {k};
      }
    }

    method RefreshQueueHead(k: QueueKey)
      modifies this
      ensures State() == Refresh(old(State()), k)
    {
      DeactivateQueueKey(k);
      if k !in queues || queues[k] == [] {
        return;
      }
      var offset := queues[k][0].offset;
      heads := heads[k := offset];
      byHead := byHead[(k.0, offset) := k];
      ActivateQueueKey(k);
    }

    /** False, with nothing changed, when the partition is not assigned. */
    method EnqueueItems(k: QueueKey, items: seq<WorkItem>) returns (accepted: bool)
      modifies this
      ensures accepted <==> k.0 in old(owned)
      ensures State() == EnqueueBatch(old(State()), k, items)
    {
      if k.0 !in owned {
        return false;
      }
      var wasEmpty := k !in queues || queues[k] == [];
      queues := queues[k := (if k in queues then queues[k] else []) + items];
      if wasEmpty && queues[k] != [] {
        RefreshQueueHead(k);
      }
      return true;
    }

    method CleanupEmptyQueue(k: QueueKey)
      modifies this
      ensures State() == CleanupEmpty(old(State()), k)
    {
      if k in queues && queues[k] == [] {
        DeactivateQueueKey(k);
        queues := queues - {k};
      }
    }

    method DequeueSubmittedItem(k: QueueKey) returns (item: Option<WorkItem>)
      modifies this
      ensures (State(), item) == DequeueItem(old(State()), k)
    {
      if k !in queues || queues[k] == [] {
        DeactivateQueueKey(k);
        return None;
      }
      item := Some(queues[k][0]);
      queues := queues[k := queues[k][1..]];
      if queues[k] == [] {
        CleanupEmptyQueue(k);
      } else {
        RefreshQueueHead(k);
      }
    }

    method DequeueSubmittedItems(k: QueueKey, count: int) returns (items: seq<WorkItem>)
      modifies this
      ensures (State(), items) == DequeueItems(old(State()), k, count)
    {
      if count <= 0 {
        return [];
      }
      if k !in queues || queues[k] == [] {
        DeactivateQueueKey(k);
        return [];
      }
      ghost var q := queues[k];
      items := [];
      var i := 0;
      while i < count && queues[k] != []
        invariant 0 <= i <= count && i <= |q| && k in queues
        invariant State() == old(State()).(queues := queues) && queues == old(queues)[k := q[i..]]
        invariant items == q[..i]
      {
        items := items + [queues[k][0]];
        queues := queues[k := queues[k][1..]];
        i := i + 1;
      }
      if queues[k] == [] {
        CleanupEmptyQueue(k);
      } else {
        RefreshQueueHead(k);
      }
    }

    method PickBlockingQueueKey(gaps: Gaps, eligible: QueueKey -> bool) returns (picked: Option<QueueKey>)
      modifies this
      ensures (State(), picked) == PickBlocking(old(State()), gaps, eligible)
    {
      var best := NoBest;
      var i := 0;
      while i < |gaps|
        invariant 0 <= i <= |gaps|
        invariant State() == old(State())
        invariant best == BestBlocking(State(), gaps, eligible, i)
      {
        var found := FindBlocking(gaps, eligible, i);
        if found.Some? && (best.NoBest? || gaps[i].1.value < best.offset) {
          best := Best(i, found.value, gaps[i].1.value);
        }
        i := i + 1;
      }
      if best.NoBest? {
        return None;
      }
      active := active - {best.key};
      runnable := Without(runnable, best.key);
      return Some(best.key);
    }

    method FindBlocking(gaps: Gaps, eligible: QueueKey -> bool, i: nat) returns (found: Option<QueueKey>)
      requires i < |gaps|
      ensures found == Indexed(State(), gaps, eligible, i)
    {
      if gaps[i].1.None? {
        return None;
      }
      if (gaps[i].0, gaps[i].1.value) !in byHead {
        return None;
      }
      var k := byHead[(gaps[i].0, gaps[i].1.value)];
      return if k in active && eligible(k) then Some(k) else None;
    }

    method PickNextRunnableQueueKey(eligible: QueueKey -> bool) returns (picked: Option<QueueKey>)
      modifies this
      ensures (State(), picked) == PickNext(old(State()), eligible)
    {
      var attempts: nat := |runnable|;
      while attempts > 0 && runnable != []
        invariant PickNext(old(State()), eligible) == PickNextFrom(State(), eligible, attempts)
        decreases attempts
      {
        var k := runnable[0];
        runnable := runnable[1..];
        if k in active {
          if k !in queues || queues[k] == [] {
            DeactivateQueueKey(k);
          } else if !eligible(k) {
            runnable := Appended(runnable, k);
          } else {
            active := active - {k};
            return Some(k);
          }
        }
        attempts := attempts - 1;
      }
      return None;
    }

    /** The blocking queue if there is one, else the next in line. */
    method PopNextQueueKey(gaps: Gaps, eligible: QueueKey -> bool) returns (picked: Option<QueueKey>)
      requires Reliable(State())
      modifies this
      ensures queues == old(queues) && heads == old(heads) && byHead == old(byHead)
      ensures picked.None? <==> forall k :: k in old(active) ==> !eligible(k)
      ensures picked.None? ==> State() == old(State())
      ensures !NoneBlocks(old(State()), gaps, eligible, |gaps|) ==>
                picked.Some? && exists at: nat :: FirstLowest(old(State()), gaps, eligible, |gaps|, at, picked.value)
      ensures NoneBlocks(old(State()), gaps, eligible, |gaps|) && picked.Some? ==>
                exists i: nat :: FirstInLine(old(State()), eligible, State(), i, picked.value)
      ensures forall deferred :: Good(old(State()), deferred) ==> Good(State(), deferred)
      ensures picked.Some? ==> picked.value in old(active) && eligible(picked.value)
                               && active == old(active) - {picked.value}
    {
      ghost var s := State();
      forall deferred | Good(s, deferred)
        ensures Good(PickBlocking(s, gaps, eligible).0, deferred) && Good(PickNext(s, eligible).0, deferred)
      {
        PickBlockingKeeps(s, deferred, gaps, eligible);
        PickNextKeeps(s, deferred, eligible);
      }
      BlockingPickIsPlainScan(s, gaps, eligible);
      picked := PickBlockingQueueKey(gaps, eligible);
      if picked.Some? {
        return;
      }
      NextPickIsFirstEligible(s, eligible);
      picked := PickNextRunnableQueueKey(eligible);
    }
  }

  method CountQueued(mine: Queues) returns (count: nat)
    ensures count == Total(mine)
  {
    count := 0;
    var left := mine;
    while left.Keys != {}
      invariant count + Total(left) == Total(mine)
      decreases left.Keys
    {
      EmptyOrInhabited(left.Keys);
      var k: QueueKey :| k in left.Keys;
      TotalWithout(left, k);
      count := count + |left[k]|;
      left := left - {k};
    }
    assert left == map[];
  }
}
