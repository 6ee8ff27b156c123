/**
 The offset tracker as a value: what each tracker operation computes, and what
 holds over every run of operations. The class in OffsetTracker.dfy is proved
 against these functions.
 */
module TrackerState {
  import opened Common
  import opened Offsets

  datatype OffsetRange = OffsetRange(start: int, end: int)

  datatype Tracker = Tracker(committed: int, completed: set<int>, fetched: int, epoch: nat)

  type TrackerMap = map<TopicPartition, Tracker>

  /** Every completed offset lies past the committed one. */
  predicate Clean(t: Tracker) {
    forall o :: o in t.completed ==> t.committed < o
  }

  // ----- the contiguous prefix

  /** The last offset of the unbroken run of `done` offsets that follows `c`. */
  function ContiguousEnd(c: int, done: set<int>): (h: int)
    ensures c <= h
    ensures forall o :: c < o <= h ==> o in done
    ensures h + 1 !in done
    decreases |done|
  {
    if c + 1 in done then
      var rest := done - {c + 1};
      var h := ContiguousEnd(c + 1, rest);
      assert forall o {:trigger o in done} :: c < o <= h ==> o == c + 1 || o in rest;
      h
    else c
  }

  lemma ContiguousEndIsUnique(c: int, done: set<int>, h: int)
    requires c <= h
    requires forall o :: c < o <= h ==> o in done
    requires h + 1 !in done
    ensures h == ContiguousEnd(c, done)
  {
  }

  function HighWaterMark(t: Tracker, minInFlight: Option<int>): int {
    var reach := if Clean(t) then ContiguousEnd(t.committed, t.completed) else t.committed;
    if minInFlight.Some? && minInFlight.value <= reach then minInFlight.value - 1 else reach
  }

  /** Committing through `h` skips no unfinished offset and no offset still in flight. */
  ghost predicate Committable(t: Tracker, minInFlight: Option<int>, h: int) {
    && (forall o :: t.committed < o <= h ==> o in t.completed)
    && (minInFlight.Some? ==> h < minInFlight.value)
  }

  ghost predicate GreatestCommittable(t: Tracker, minInFlight: Option<int>, h: int) {
    Committable(t, minInFlight, h) && forall k :: Committable(t, minInFlight, k) ==> k <= h
  }

  lemma HighWaterMarkIsCommittable(t: Tracker, minInFlight: Option<int>)
    ensures Committable(t, minInFlight, HighWaterMark(t, minInFlight))
  {
  }

  /**
   The mark is the greatest committable offset exactly when no stale completed
   offset sits at or below the committed one, or the next offset is not done, or
   the in-flight clamp already stops at the committed offset.
   */
  lemma HighWaterMarkIsGreatest(t: Tracker, minInFlight: Option<int>)
    ensures GreatestCommittable(t, minInFlight, HighWaterMark(t, minInFlight)) <==>
              Clean(t) || t.committed + 1 !in t.completed
              || (minInFlight.Some? && minInFlight.value <= t.committed + 1)
  {
    var h := HighWaterMark(t, minInFlight);
    if Clean(t) || t.committed + 1 !in t.completed
       || (minInFlight.Some? && minInFlight.value <= t.committed + 1) {
      forall k | Committable(t, minInFlight, k) ensures k <= h {
        MarkBounds(t, minInFlight, k);
      }
    } else {
      assert h == t.committed;
      assert Committable(t, minInFlight, h + 1);
    }
  }

  lemma MarkBounds(t: Tracker, minInFlight: Option<int>, k: int)
    requires Committable(t, minInFlight, k)
    requires Clean(t) || t.committed + 1 !in t.completed
             || (minInFlight.Some? && minInFlight.value <= t.committed + 1)
    ensures k <= HighWaterMark(t, minInFlight)
  {
  }

  // ----- state changes

  function MarkComplete(t: Tracker, offset: int): Tracker {
    if offset > t.committed then t.(completed := t.completed + {offset}) else t
  }

  function CommitThrough(t: Tracker, offset: int): Tracker {
    if offset <= t.committed then t
    else t.(committed := offset,
            completed := set o | o in t.completed && !(t.committed < o <= offset))
  }

  function AdvanceHighWaterMark(t: Tracker): Tracker {
    CommitThrough(t, HighWaterMark(t, None))
  }

  function UpdateFetched(t: Tracker, offset: int): Tracker {
    if offset > t.fetched then t.(fetched := offset) else t
  }

  predicate CompletedUncommitted(t: Tracker, offset: int) {
    t.committed < offset <= t.fetched && offset in t.completed
  }

  // ----- gaps

  ghost predicate Covered(gaps: seq<OffsetRange>, o: int) {
    exists i :: 0 <= i < |gaps| && gaps[i].start <= o <= gaps[i].end
  }

  /** Non-empty ranges in ascending order, no two of them touching. */
  ghost predicate Separated(gaps: seq<OffsetRange>) {
    && (forall i :: 0 <= i < |gaps| ==> gaps[i].start <= gaps[i].end)
    && (forall i, j :: 0 <= i < j < |gaps| ==> gaps[i].end + 1 < gaps[j].start)
  }

  /** `gaps` are the maximal ranges of offsets in [lo, hi) that are not in `done`. */
  ghost predicate GapsBetween(gaps: seq<OffsetRange>, done: set<int>, lo: int, hi: int) {
    && Separated(gaps)
    && (forall o :: Covered(gaps, o) <==> lo <= o < hi && o !in done)
  }

  ghost predicate GapsOf(t: Tracker, gaps: seq<OffsetRange>) {
    GapsBetween(gaps, t.completed, t.committed + 1, t.fetched + 1)
  }

  /** The first missing fetched offset. */
  function FirstGap(t: Tracker): Option<int> {
    var h := ContiguousEnd(t.committed, t.completed) + 1;
    if h <= t.fetched then Some(h) else None
  }

  predicate BeginsGap(t: Tracker, o: int) {
    o !in t.completed && (o == t.committed + 1 || o - 1 in t.completed)
  }

  /** Offsets at which a gap begins. */
  function GapStarts(t: Tracker): set<int> {
    set o | t.committed < o <= t.fetched && BeginsGap(t, o)
  }

  /** The gaps of [current, last], read off the completed offsets in ascending order. */
  function GapWalk(order: seq<int>, current: int, last: int): seq<OffsetRange> {
    if order == [] then
      if current <= last then [OffsetRange(current, last)] else []
    else
      (if order[0] > current then [OffsetRange(current, order[0] - 1)] else [])
      + GapWalk(order[1..], order[0] + 1, last)
  }

  function Gaps(t: Tracker): seq<OffsetRange> {
    match FirstGap(t)
    case None => []
    case Some(head) => GapWalk(Range(t.completed, head, t.fetched), head, t.fetched)
  }

  lemma CoveredPrepend(r: OffsetRange, gaps: seq<OffsetRange>, o: int)
    ensures Covered([r] + gaps, o) <==> r.start <= o <= r.end || Covered(gaps, o)
  {
    var all := [r] + gaps;
    assert all[0] == r;
    assert forall i :: 0 <= i < |gaps| ==> all[i + 1] == gaps[i];
    if Covered(gaps, o) {
      var i :| 0 <= i < |gaps| && gaps[i].start <= o <= gaps[i].end;
      assert all[i + 1] == gaps[i];
    }
    if Covered(all, o) {
      var i :| 0 <= i < |all| && all[i].start <= o <= all[i].end;
      assert i > 0 ==> all[i] == gaps[i - 1];
    }
  }

  /** A missing range [lo, next) goes in front of the gaps that follow the done offset `next`. */
  lemma PrependGap(gaps: seq<OffsetRange>, done: set<int>, lo: int, next: int, hi: int)
    requires lo < next < hi && next in done
    requires GapsBetween(gaps, done, next + 1, hi)
    requires forall o :: lo <= o < next ==> o !in done
    ensures GapsBetween([OffsetRange(lo, next - 1)] + gaps, done, lo, hi)
  {
    var r := OffsetRange(lo, next - 1);
    forall o ensures Covered([r] + gaps, o) <==> lo <= o < hi && o !in done {
      CoveredPrepend(r, gaps, o);
    }
    forall i | 0 <= i < |gaps| ensures next < gaps[i].start {
      assert Covered(gaps, gaps[i].start);
    }
  }

  lemma WidenGaps(gaps: seq<OffsetRange>, done: set<int>, lo: int, head: int, hi: int)
    requires lo <= head && GapsBetween(gaps, done, head, hi)
    requires forall o :: lo <= o < head ==> o in done
    ensures GapsBetween(gaps, done, lo, hi)
  {
  }

  lemma LastGap(done: set<int>, lo: int, hi: int)
    requires lo <= hi && forall o :: o in done ==> !(lo <= o < hi)
    ensures GapsBetween(if lo <= hi - 1 then [OffsetRange(lo, hi - 1)] else [], done, lo, hi)
  {
    if lo < hi {
      var r := OffsetRange(lo, hi - 1);
      assert [r] == [r] + [];
      forall o ensures Covered([r], o) <==> lo <= o < hi {
        CoveredPrepend(r, [], o);
      }
    }
  }

  ghost predicate Lists(order: seq<int>, done: set<int>, lo: int, last: int) {
    Ascending(order) && forall x :: x in order <==> x in done && lo <= x <= last
  }

  lemma {:induction false} GapWalkIsExact(order: seq<int>, done: set<int>, current: int, last: int)
    requires Lists(order, done, current, last) && current <= last + 1
    ensures GapsBetween(GapWalk(order, current, last), done, current, last + 1)
  {
    if order == [] {
      LastGap(done, current, last + 1);
    } else {
      SplitOrder(order, done, current, last);
      GapWalkIsExact(order[1..], done, order[0] + 1, last);
      var rest := GapWalk(order[1..], order[0] + 1, last);
      JoinGap(rest, done, current, order[0], last);
      assert GapWalk(order, current, last) ==
             (if order[0] > current then [OffsetRange(current, order[0] - 1)] else []) + rest;
    }
  }

  lemma SplitOrder(order: seq<int>, done: set<int>, current: int, last: int)
    requires Lists(order, done, current, last) && order != []
    ensures current <= order[0] <= last && order[0] in done
    ensures forall o :: current <= o < order[0] ==> o !in done
    ensures Lists(order[1..], done, order[0] + 1, last)
  {
    assert order[0] in order;
    assert forall o :: current <= o < order[0] ==> o !in order;
    forall x ensures x in order[1..] <==> x in done && order[0] + 1 <= x <= last {
      TailMembers(order, x);
      assert x in order ==> order[0] <= x;
    }
  }

  lemma JoinGap(rest: seq<OffsetRange>, done: set<int>, current: int, first: int, last: int)
    requires current <= first <= last && first in done
    requires forall o :: current <= o < first ==> o !in done
    requires GapsBetween(rest, done, first + 1, last + 1)
    ensures GapsBetween((if first > current then [OffsetRange(current, first - 1)] else []) + rest, done, current, last + 1)
  {
    if first > current {
      PrependGap(rest, done, current, first, last + 1);
    } else {
      assert [] + rest == rest;
      WidenGaps(rest, done, current, first + 1, last + 1);
    }
  }

  /** The gap list is the one list of maximal ranges of fetched offsets not yet completed. */
  lemma GapsAreExact(t: Tracker)
    ensures GapsOf(t, Gaps(t))
    ensures forall gaps :: GapsOf(t, gaps) ==> gaps == Gaps(t)
  {
    match FirstGap(t) {
      case None =>
        assert forall o :: t.committed < o <= t.fetched ==> o in t.completed;
      case Some(head) =>
        GapWalkIsExact(Range(t.completed, head, t.fetched), t.completed, head, t.fetched);
        WidenGaps(Gaps(t), t.completed, t.committed + 1, head, t.fetched + 1);
    }
    forall gaps | GapsOf(t, gaps) ensures gaps == Gaps(t) {
      GapsAreUnique(gaps, Gaps(t), t.completed, t.committed + 1, t.fetched + 1);
    }
  }

  /** A tracker has exactly one gap list. */
  lemma {:induction false} GapsAreUnique(p: seq<OffsetRange>, q: seq<OffsetRange>, done: set<int>, lo: int, hi: int)
    requires GapsBetween(p, done, lo, hi)
    requires GapsBetween(q, done, lo, hi)
    ensures p == q
    decreases |p|
  {
    if |p| > 0 && |q| > 0 {
      HeadGapsAgree(p, q, done, lo, hi);
      DropHeadGap(p, done, lo, hi);
      DropHeadGap(q, done, lo, hi);
      GapsAreUnique(p[1..], q[1..], done, p[0].end + 1, hi);
      assert p == [p[0]] + p[1..] && q == [q[0]] + q[1..];
    } else {
      assert |p| > 0 ==> Covered(p, p[0].start);
      assert |q| > 0 ==> Covered(q, q[0].start);
    }
  }

  lemma HeadGapsAgree(p: seq<OffsetRange>, q: seq<OffsetRange>, done: set<int>, lo: int, hi: int)
    requires GapsBetween(p, done, lo, hi)
    requires GapsBetween(q, done, lo, hi)
    requires |p| > 0 && |q| > 0
    ensures p[0] == q[0]
  {
    HeadGapIsFirst(p, done, lo, hi);
    HeadGapIsFirst(q, done, lo, hi);
    var a, b := p[0], q[0];
    assert a.start < b.start ==> a.start in done;
    assert b.start < a.start ==> b.start in done;
    assert a.end < b.end ==> a.end + 1 !in done;
    assert b.end < a.end ==> b.end + 1 !in done;
  }

  lemma HeadGapIsFirst(p: seq<OffsetRange>, done: set<int>, lo: int, hi: int)
    requires GapsBetween(p, done, lo, hi)
    requires |p| > 0
    ensures lo <= p[0].start <= p[0].end < hi
    ensures forall o :: lo <= o < p[0].start ==> o in done
    ensures forall o :: p[0].start <= o <= p[0].end ==> o !in done
    ensures p[0].end + 1 < hi ==> p[0].end + 1 in done
  {
    assert Covered(p, p[0].start) && Covered(p, p[0].end);
    forall o | lo <= o < p[0].start ensures o in done {
      assert o < hi && !Covered(p, o);
    }
    forall o | p[0].start <= o <= p[0].end ensures o !in done {
      assert Covered(p, o);
    }
    assert !Covered(p, p[0].end + 1);
  }

  lemma DropHeadGap(p: seq<OffsetRange>, done: set<int>, lo: int, hi: int)
    requires GapsBetween(p, done, lo, hi)
    requires |p| > 0
    ensures GapsBetween(p[1..], done, p[0].end + 1, hi)
  {
    HeadGapIsFirst(p, done, lo, hi);
    forall o ensures Covered(p[1..], o) <==> p[0].end + 1 <= o < hi && o !in done {
      if Covered(p[1..], o) {
        var i :| 0 <= i < |p[1..]| && p[1..][i].start <= o <= p[1..][i].end;
        assert p[i + 1] == p[1..][i];
        assert Covered(p, o);
      }
      if p[0].end + 1 <= o < hi && o !in done {
        assert Covered(p, o);
        var i :| 0 <= i < |p| && p[i].start <= o <= p[i].end;
        assert i > 0 && p[1..][i - 1] == p[i];
      }
    }
  }

  /** The starts of the gap list are the offsets at which a gap begins. */
  lemma StartsOfGaps(t: Tracker)
    ensures (set i | 0 <= i < |Gaps(t)| :: Gaps(t)[i].start) == GapStarts(t)
  {
    GapsAreExact(t);
    StartsOfGapList(t, Gaps(t));
  }

  lemma StartsOfGapList(t: Tracker, gaps: seq<OffsetRange>)
    requires GapsOf(t, gaps)
    ensures (set i | 0 <= i < |gaps| :: gaps[i].start) == GapStarts(t)
  {
    forall i | 0 <= i < |gaps| ensures gaps[i].start in GapStarts(t) {
      var s := gaps[i].start;
      assert Covered(gaps, s);
      assert !Covered(gaps, s - 1) by {
        assert forall j :: 0 <= j < i ==> gaps[j].end + 1 < s;
        assert forall j :: i < j < |gaps| ==> s <= gaps[i].end < gaps[j].start;
      }
    }
    forall s | s in GapStarts(t) ensures exists i :: 0 <= i < |gaps| && gaps[i].start == s {
      assert Covered(gaps, s);
      var i :| 0 <= i < |gaps| && gaps[i].start <= s <= gaps[i].end;
      assert gaps[i].start < s ==> Covered(gaps, s - 1);
    }
  }

  // ----- blocking timestamps

  /** A tracker with the time at which each blocking offset was first seen. */
  datatype Watched = Watched(tracker: Tracker, blocking: map<int, real>)

  /** Keeps the first-seen time of a gap that persists, stamps new gaps, forgets the rest. */
  function Restamp(blocking: map<int, real>, starts: set<int>, now: real): map<int, real> {
    map o | o in starts :: if o in blocking then blocking[o] else now
  }

  datatype TrackerOp = Complete(offset: int) | Commit(offset: int) | Fetch(offset: int) | ReadGaps(now: real)

  function Apply(w: Watched, op: TrackerOp): Watched {
    match op
    case Complete(o) => w.(tracker := MarkComplete(w.tracker, o))
    case Commit(o) => w.(tracker := CommitThrough(w.tracker, o))
    case Fetch(o) => w.(tracker := UpdateFetched(w.tracker, o))
    case ReadGaps(now) => w.(blocking := Restamp(w.blocking, GapStarts(w.tracker), now))
  }

  function Run(w: Watched, ops: seq<TrackerOp>): Watched
    decreases |ops|
  {
    if ops == [] then w else Run(Apply(w, ops[0]), ops[1..])
  }

  /** Every commit of the run stays within the contiguous prefix of its moment. */
  ghost predicate SafeRun(w: Watched, ops: seq<TrackerOp>)
    decreases |ops|
  {
    ops == [] ||
    (&& (ops[0].Commit? ==> ops[0].offset <= ContiguousEnd(w.tracker.committed, w.tracker.completed))
     && SafeRun(Apply(w, ops[0]), ops[1..]))
  }

  function Marks(ops: seq<TrackerOp>): set<int> {
    set i | 0 <= i < |ops| && ops[i].Complete? :: ops[i].offset
  }

  /** What is known to be done past `c`: completed, or already committed. */
  ghost predicate SameWork(c: int, done: set<int>, t: Tracker) {
    && Clean(t) && c <= t.committed
    && (forall o :: o > c ==> (o in done <==> o <= t.committed || o in t.completed))
  }

  lemma StepKeepsWork(c: int, done: set<int>, w: Watched, op: TrackerOp)
    requires SameWork(c, done, w.tracker)
    requires op.Commit? ==> op.offset <= ContiguousEnd(w.tracker.committed, w.tracker.completed)
    ensures SameWork(c, if op.Complete? then done + {op.offset} else done, Apply(w, op).tracker)
  {
  }

  lemma MarksOfTail(ops: seq<TrackerOp>)
    requires ops != []
    ensures Marks(ops) == Marks(ops[1..]) + (if ops[0].Complete? then {ops[0].offset} else {})
  {
  }

  lemma {:induction false} RunKeepsWork(c: int, done: set<int>, w: Watched, ops: seq<TrackerOp>)
    requires SameWork(c, done, w.tracker) && SafeRun(w, ops)
    ensures SameWork(c, done + Marks(ops), Run(w, ops).tracker)
    decreases |ops|
  {
    if ops == [] {
      assert done + Marks(ops) == done;
    } else {
      var done' := if ops[0].Complete? then done + {ops[0].offset} else done;
      StepKeepsWork(c, done, w, ops[0]);
      RunKeepsWork(c, done', Apply(w, ops[0]), ops[1..]);
      MarksOfTail(ops);
      assert done + Marks(ops) == done' + Marks(ops[1..]);
    }
  }

  /**
   Confluence: however completions, safe commits, fetches and gap reads were
   interleaved, a final advance lands on the end of the contiguous prefix of all
   the work, and keeps exactly the work past it.
   */
  lemma Confluence(w: Watched, ops: seq<TrackerOp>)
    requires Clean(w.tracker) && SafeRun(w, ops)
    ensures var t := w.tracker;
            var work := t.completed + Marks(ops);
            var end := AdvanceHighWaterMark(Run(w, ops).tracker);
            && end.committed == ContiguousEnd(t.committed, work)
            && end.completed == set o | o in work && o > end.committed
  {
    var t := w.tracker;
    var work := t.completed + Marks(ops);
    RunKeepsWork(t.committed, t.completed, w, ops);
    var last := Run(w, ops).tracker;
    var h := HighWaterMark(last, None);
    assert forall o :: t.committed < o <= h ==> o in work;
    ContiguousEndIsUnique(t.committed, work, h);
  }

  /** Two safe runs that complete the same offsets agree after a final advance. */
  lemma OrderDoesNotMatter(w: Watched, p: seq<TrackerOp>, q: seq<TrackerOp>)
    requires Clean(w.tracker) && SafeRun(w, p) && SafeRun(w, q)
    requires Marks(p) == Marks(q)
    ensures var a := AdvanceHighWaterMark(Run(w, p).tracker);
            var b := AdvanceHighWaterMark(Run(w, q).tracker);
            a.committed == b.committed && a.completed == b.completed
  {
    Confluence(w, p);
    Confluence(w, q);
  }

  /** The furthest offset handed to a fetch of the run, or the one at its start. */
  function FurthestFetch(start: int, ops: seq<TrackerOp>): int {
    if ops == [] then start
    else
      var rest := FurthestFetch(start, ops[..|ops| - 1]);
      var last := ops[|ops| - 1];
      if last.Fetch? && last.offset > rest then last.offset else rest
  }

  lemma {:induction false} RunAppends(w: Watched, ops: seq<TrackerOp>, op: TrackerOp)
    ensures Run(w, ops + [op]) == Apply(Run(w, ops), op)
    decreases |ops|
  {
    if ops == [] {
      assert [op][1..] == [];
    } else {
      assert (ops + [op])[1..] == ops[1..] + [op];
      RunAppends(Apply(w, ops[0]), ops[1..], op);
    }
  }

  /** In every run the fetched offset is the furthest one fetched, and the epoch never moves. */
  lemma {:induction false} FetchedIsFurthest(w: Watched, ops: seq<TrackerOp>)
    ensures Run(w, ops).tracker.fetched == FurthestFetch(w.tracker.fetched, ops)
    ensures Run(w, ops).tracker.epoch == w.tracker.epoch
  {
    if ops != [] {
      var front, last := ops[..|ops| - 1], ops[|ops| - 1];
      FetchedIsFurthest(w, front);
      RunAppends(w, front, last);
      assert ops == front + [last];
    }
  }

  /** After a gap read the stamps are those of the gap starts: old ones kept, new ones the time of the read. */
  lemma GapReadStamps(w: Watched, now: real, o: int)
    ensures var after := Apply(w, ReadGaps(now)).blocking;
            && (o in after <==> w.tracker.committed < o <= w.tracker.fetched && o !in w.tracker.completed
                                && (o == w.tracker.committed + 1 || o - 1 in w.tracker.completed))
            && (o in after ==> after[o] == if o in w.blocking then w.blocking[o] else now)
  {
  }

  lemma GapPersists(w: Watched, op: TrackerOp, o: int)
    requires Clean(w.tracker) && o in GapStarts(w.tracker)
    requires op.Commit? ==> op.offset <= ContiguousEnd(w.tracker.committed, w.tracker.completed)
    requires op != Complete(o)
    ensures Clean(Apply(w, op).tracker) && o in GapStarts(Apply(w, op).tracker)
  {
  }

  /** A blocking offset keeps its first-seen time until that very offset completes. */
  lemma {:induction false} FirstSeenTimeIsKept(w: Watched, ops: seq<TrackerOp>, o: int)
    requires Clean(w.tracker) && SafeRun(w, ops)
    requires o in GapStarts(w.tracker) && o in w.blocking
    requires Complete(o) !in ops
    ensures o in GapStarts(Run(w, ops).tracker)
    ensures o in Run(w, ops).blocking && Run(w, ops).blocking[o] == w.blocking[o]
    decreases |ops|
  {
    if ops != [] {
      GapPersists(w, ops[0], o);
      FirstSeenTimeIsKept(Apply(w, ops[0]), ops[1..], o);
    }
  }
}
