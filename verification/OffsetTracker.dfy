/**
 The mutable per-partition tracker with its derived state: the first-gap head,
 the one-entry gap cache keyed by the state version, and blocking timestamps.
 */
module Trackers {
  import opened Common
  import opened Offsets
  import opened TrackerState

  datatype CacheKey = CacheKey(committed: int, fetched: int, version: nat)
  datatype CacheEntry = CacheEntry(key: CacheKey, gaps: seq<OffsetRange>)

  class OffsetTracker {
    var committed: int
    var completed: set<int>
    var fetched: int
    var epoch: nat
    var blocking: map<int, real>
    var stateVersion: nat
    var gapsCache: Option<CacheEntry>
    var firstGapHead: Option<int>

    ghost function State(): Tracker
      reads this
    {
      Tracker(committed, completed, fetched, epoch)
    }

    /** The derived fields agree with the offsets they were derived from. */
    ghost predicate Valid()
      reads this
    {
      && firstGapHead == FirstGap(State())
      && (gapsCache.Some? ==>
            && gapsCache.value.key == CacheKey(committed, fetched, stateVersion)
            && gapsCache.value.gaps == Gaps(State())
            && blocking.Keys == GapStarts(State()))
    }

    constructor (startingOffset: int, initialCompleted: set<int>)
      ensures Valid()
      ensures State() == Tracker(startingOffset - 1, initialCompleted, startingOffset - 1, 0)
      ensures blocking == map[]
    {
      committed, completed, fetched := startingOffset - 1, initialCompleted, startingOffset - 1;
      epoch, blocking, stateVersion, gapsCache := 0, map[], 0, None;
      new;
      firstGapHead := CalculateFirstGapHead();
    }

    method CalculateFirstGapHead() returns (head: Option<int>)
      ensures head == FirstGap(State())
    {
      var current := committed + 1;
      while current <= fetched && current in completed
        invariant committed < current
        invariant forall o :: committed < o < current ==> o in completed
      {
        current := current + 1;
      }
      if current > fetched {
        ghost var end := ContiguousEnd(committed, completed);
        assert end + 1 < current ==> end + 1 in completed;
        return None;
      }
      ContiguousEndIsUnique(committed, completed, current - 1);
      return Some(current);
    }

    method BumpVersion()
      modifies this
      ensures Valid() && gapsCache.None?
      ensures State() == old(State()) && blocking == old(blocking)
      ensures stateVersion == old(stateVersion) + 1
    {
      stateVersion := stateVersion + 1;
      gapsCache := None;
      firstGapHead := CalculateFirstGapHead();
    }

    method IncrementEpoch()
      requires Valid()
      modifies this
      ensures Valid() && State() == old(State()).(epoch := old(epoch) + 1) && blocking == old(blocking)
    {
      EpochIsIrrelevant(State(), epoch + 1);
      epoch := epoch + 1;
    }

    /** False when the offsets are refused; nothing has changed then. */
    method RehydrateAssignmentState(lastCommitted: int, lastFetched: int) returns (accepted: bool)
      requires Valid()
      modifies this
      ensures accepted <==> lastCommitted <= lastFetched
      ensures Valid() && blocking == old(blocking)
      ensures State() == if accepted then old(State()).(committed := lastCommitted, fetched := lastFetched)
                         else old(State())
    {
      if lastFetched < lastCommitted {
        return false;
      }
      committed, fetched := lastCommitted, lastFetched;
      BumpVersion();
      return true;
    }

    method MarkComplete(offset: int)
      requires Valid()
      modifies this
      ensures Valid() && State() == TrackerState.MarkComplete(old(State()), offset)
      ensures blocking == old(blocking)
    {
      if offset > committed {
        var beforeSize := |completed|;
        completed := completed + {offset};
        if |completed| != beforeSize {
          BumpVersion();
        } else {
          assert completed == old(completed);
        }
      }
    }

    method GetCommittableHighWaterMark(minInFlight: Option<int>) returns (mark: int)
      ensures mark == HighWaterMark(State(), minInFlight)
    {
      var order := Sorted(completed);
      var run := CountContiguous(committed, order);
      ScanEndsAtPrefix(State(), order, run);
      var potential := committed + run;
      if minInFlight.Some? && minInFlight.value <= potential {
        return minInFlight.value - 1;
      }
      return potential;
    }

    method CommitThrough(offset: int)
      requires Valid()
      modifies this
      ensures Valid() && State() == TrackerState.CommitThrough(old(State()), offset)
      ensures blocking == old(blocking)
    {
      if offset <= committed {
        return;
      }
      completed := RemoveInTurn(completed, Range(completed, committed + 1, offset));
      RemovedRange(old(State()), offset, completed);
      committed := offset;
      BumpVersion();
    }

    method AdvanceHighWaterMark()
      requires Valid()
      modifies this
      ensures Valid() && State() == TrackerState.AdvanceHighWaterMark(old(State()))
      ensures blocking == old(blocking)
    {
      var mark := GetCommittableHighWaterMark(None);
      CommitThrough(mark);
    }

    method UpdateLastFetchedOffset(offset: int)
      requires Valid()
      modifies this
      ensures Valid() && State() == UpdateFetched(old(State()), offset)
      ensures blocking == old(blocking)
    {
      if offset > fetched {
        fetched := offset;
        BumpVersion();
      }
    }

    /**
     The gap list, served from the cache when nothing changed since it was built;
     either way the blocking timestamps end up keyed by exactly the gap starts.
     */
    method GetGaps(now: real) returns (gaps: seq<OffsetRange>)
      requires Valid()
      modifies this
      ensures Valid() && State() == old(State())
      ensures gaps == Gaps(State())
      ensures blocking == Restamp(old(blocking), GapStarts(State()), now)
    {
      var key := CacheKey(committed, fetched, stateVersion);
      if gapsCache.Some? && gapsCache.value.key == key {
        RestampIsStable(blocking, GapStarts(State()), now);
        return gapsCache.value.gaps;
      }
      if firstGapHead.None? || firstGapHead.value > fetched {
        NothingBlocks(State());
        blocking := map[];
        return [];
      }
      gaps := GapsFrom(State(), completed, firstGapHead.value, fetched);
      blocking := StampGaps(State(), gaps, blocking, now);
      gapsCache := Some(CacheEntry(key, gaps));
    }
  }

  /** Length of the run of consecutive offsets that follows `committed` at the front of `order`. */
  method CountContiguous(committed: int, order: seq<int>) returns (i: nat)
    ensures i <= |order| && (i < |order| ==> order[i] != committed + i + 1)
    ensures forall j :: 0 <= j < i ==> order[j] == committed + 1 + j
  {
    var potential := committed;
    i := 0;
    while i < |order| && order[i] == potential + 1
      invariant i <= |order| && potential == committed + i
      invariant forall j :: 0 <= j < i ==> order[j] == committed + 1 + j
    {
      potential := order[i];
      i := i + 1;
    }
  }

  lemma EpochIsIrrelevant(t: Tracker, epoch: nat)
    ensures FirstGap(t.(epoch := epoch)) == FirstGap(t)
    ensures Gaps(t.(epoch := epoch)) == Gaps(t)
    ensures GapStarts(t.(epoch := epoch)) == GapStarts(t)
  {
    var t' := t.(epoch := epoch);
    forall o ensures o in GapStarts(t') <==> o in GapStarts(t) {
      assert BeginsGap(t', o) == BeginsGap(t, o);
    }
  }

  method RemoveInTurn(offsets: set<int>, toRemove: seq<int>) returns (left: set<int>)
    ensures forall o :: o in left <==> o in offsets && o !in toRemove
  {
    left := offsets;
    var i := 0;
    while i < |toRemove|
      invariant 0 <= i <= |toRemove|
      invariant forall o :: o in left <==> o in offsets && o !in toRemove[..i]
    {
      left := left - {toRemove[i]};
      i := i + 1;
    }
    assert toRemove[..i] == toRemove;
  }

  lemma RemovedRange(t: Tracker, offset: int, left: set<int>)
    requires offset > t.committed
    requires forall o :: o in left <==> o in t.completed && o !in Range(t.completed, t.committed + 1, offset)
    ensures left == TrackerState.CommitThrough(t, offset).completed
  {
    var gone := Range(t.completed, t.committed + 1, offset);
    forall o ensures o in left <==> o in TrackerState.CommitThrough(t, offset).completed {
      assert o in gone <==> o in t.completed && t.committed + 1 <= o <= offset;
    }
  }

  method GapsFrom(ghost t: Tracker, completed: set<int>, head: int, fetched: int) returns (gaps: seq<OffsetRange>)
    requires FirstGap(t) == Some(head) && t.completed == completed && t.fetched == fetched
    ensures gaps == Gaps(t)
  {
    gaps := CollectGaps(Range(completed, head, fetched), head, fetched);
  }

  lemma RestampIsStable(blocking: map<int, real>, starts: set<int>, now: real)
    requires blocking.Keys == starts
    ensures Restamp(blocking, starts, now) == blocking
  {
  }

  lemma NothingBlocks(t: Tracker)
    requires FirstGap(t).None?
    ensures Gaps(t) == []
    ensures forall blocking, now :: Restamp(blocking, GapStarts(t), now) == map[]
  {
  }

  method StampGaps(ghost t: Tracker, gaps: seq<OffsetRange>, blocking: map<int, real>, now: real)
    returns (stamps: map<int, real>)
    requires gaps == Gaps(t)
    ensures stamps == Restamp(blocking, GapStarts(t), now) && stamps.Keys == GapStarts(t)
  {
    StartsOfGaps(t);
    var starts := set i | 0 <= i < |gaps| :: gaps[i].start;
    stamps := map o | o in starts :: if o in blocking then blocking[o] else now;
  }

  /** The gap list of [head, last], built by walking the completed offsets in order. */
  method CollectGaps(order: seq<int>, head: int, last: int) returns (gaps: seq<OffsetRange>)
    ensures gaps == GapWalk(order, head, last)
  {
    gaps := [];
    var current := head;
    var i := 0;
    assert order[0..] == order;
    while i < |order|
      invariant 0 <= i <= |order|
      invariant gaps + GapWalk(order[i..], current, last) == GapWalk(order, head, last)
    {
      var done := order[i];
      WalkOne(gaps, order, i, current, last);
      if done > current {
        gaps := gaps + [OffsetRange(current, done - 1)];
      }
      current := done + 1;
      i := i + 1;
    }
    if current <= last {
      gaps := gaps + [OffsetRange(current, last)];
    }
  }

  lemma WalkOne(gaps: seq<OffsetRange>, order: seq<int>, i: nat, current: int, last: int)
    requires i < |order|
    ensures gaps + GapWalk(order[i..], current, last) ==
            (if order[i] > current then gaps + [OffsetRange(current, order[i] - 1)] else gaps)
            + GapWalk(order[i + 1..], order[i] + 1, last)
  {
  }

  // ----- facts the high-water-mark scan rests on

  lemma ScanEndsAtPrefix(t: Tracker, order: seq<int>, i: nat)
    requires Ascending(order) && i <= |order|
    requires forall x :: x in order <==> x in t.completed
    requires forall j :: 0 <= j < i ==> order[j] == t.committed + 1 + j
    requires i < |order| ==> order[i] != t.committed + i + 1
    ensures t.committed + i == HighWaterMark(t, None)
  {
    if Clean(t) {
      CleanScan(t, order, i);
      ContiguousEndIsUnique(t.committed, t.completed, t.committed + i);
    } else {
      StaleScan(t, order, i);
    }
  }

  lemma CleanScan(t: Tracker, order: seq<int>, i: nat)
    requires Clean(t) && Ascending(order) && i <= |order|
    requires forall x :: x in order <==> x in t.completed
    requires forall j :: 0 <= j < i ==> order[j] == t.committed + 1 + j
    requires i < |order| ==> order[i] != t.committed + i + 1
    ensures forall o :: t.committed < o <= t.committed + i ==> o in t.completed
    ensures t.committed + i + 1 !in t.completed
  {
    forall o | t.committed < o <= t.committed + i ensures o in t.completed {
      assert order[o - t.committed - 1] in order;
    }
    assert i < |order| ==> order[i] in order && order[i] > t.committed + i + 1 by {
      if i < |order| {
        assert order[i] in order;
        assert i > 0 ==> order[i - 1] < order[i];
      }
    }
    assert forall k :: 0 <= k < |order| ==> order[k] != t.committed + i + 1;
  }

  lemma StaleScan(t: Tracker, order: seq<int>, i: nat)
    requires !Clean(t) && Ascending(order) && i <= |order|
    requires forall x :: x in order <==> x in t.completed
    requires forall j :: 0 <= j < i ==> order[j] == t.committed + 1 + j
    ensures i == 0
  {
    var low :| low in t.completed && low <= t.committed;
    assert low in order;
    assert order[0] <= low;
  }
}
