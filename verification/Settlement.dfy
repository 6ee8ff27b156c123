/**
 Settlement ledgers: which partitions are dirty, how many completions of each are
 unsettled, and when each unsettled offset completed.
 */
module Settlement {
  import opened Common
  import opened TrackerState
  import opened CompletionEvents
  import opened Completion
  import opened Handoff
  import Runs = CompletionRuns

  type Stamps = map<int, real>

  /** The ledgers of one partition; a missing count is 0 and missing stamps are none. */
  datatype Slot = Slot(dirty: bool, count: int, stamps: Stamps)

  function Stamped(stamps: Stamps, offsets: seq<int>, now: real): Stamps {
    stamps + map o | o in offsets :: now
  }

  /** After a completion batch that reported `offsets` for the partition. */
  function RecordSlot(s: Slot, offsets: seq<int>, retried: bool, now: real): Slot {
    Slot(s.dirty || offsets != [] || retried, s.count + |offsets|, Stamped(s.stamps, offsets, now))
  }

  function Retained(stamps: Stamps, completed: set<int>, safe: int): Stamps {
    map o | o in stamps && o in completed && o > safe :: stamps[o]
  }

  /** After a commit through `safe` succeeded and left `completed` in the tracker. */
  function ClearSlot(s: Slot, completed: set<int>, safe: int): Slot {
    if |completed| > 0 then Slot(true, |completed|, Retained(s.stamps, completed, safe))
    else Slot(false, 0, map[])
  }

  // ----- the ledgers follow the tracker

  /**
   `restored` are the offsets the tracker was given from commit metadata; they were
   never reported by a completion batch. For all others the stamps name exactly the
   completed offsets, and the partition is dirty while there are any.
   */
  ghost predicate Follows(s: Slot, t: Tracker, restored: set<int>) {
    && Clean(t)
    && (forall o :: o in restored ==> o in t.completed || o <= t.committed)
    && s.stamps.Keys == t.completed - restored
    && (t.completed - restored != {} ==> s.dirty)
    && (s.count == |t.completed| || s.count == |t.completed - restored|)
  }

  lemma RecordFollows(s: Slot, t: Tracker, t': Tracker, restored: set<int>, offsets: seq<int>, retried: bool, now: real)
    requires Follows(s, t, restored) && GrewBy(t, t', offsets)
    ensures Follows(RecordSlot(s, offsets, retried, now), t', restored)
  {
    RecordStamps(s, t, t', restored, offsets, now);
    assert offsets == [] ==> t'.completed - restored == t.completed - restored by {
      GrowthIsNew(t, t', restored, offsets);
    }
  }

  lemma RecordStamps(s: Slot, t: Tracker, t': Tracker, restored: set<int>, offsets: seq<int>, now: real)
    requires GrewBy(t, t', offsets) && s.stamps.Keys == t.completed - restored
    requires forall o :: o in restored ==> o in t.completed || o <= t.committed
    ensures Stamped(s.stamps, offsets, now).Keys == t'.completed - restored
    ensures |t'.completed - restored| == |t.completed - restored| + |offsets|
  {
    GrowthIsNew(t, t', restored, offsets);
    RecordCounts(t.completed, t'.completed, restored, set o | o in offsets, |offsets|);
    StampedKeys(s.stamps, offsets, now);
  }

  lemma GrowthIsNew(t: Tracker, t': Tracker, restored: set<int>, offsets: seq<int>)
    requires GrewBy(t, t', offsets)
    requires forall o :: o in restored ==> o in t.completed || o <= t.committed
    ensures var added := set o | o in offsets;
            added !! t.completed && added !! restored
            && t'.completed == t.completed + added && t'.completed - restored == (t.completed - restored) + added
  {
    var added := set o | o in offsets;
    forall o ensures o in t'.completed <==> o in t.completed + added {
      assert o in added <==> o in offsets;
    }
    assert added !! restored;
  }

  lemma StampedKeys(stamps: Stamps, offsets: seq<int>, now: real)
    ensures Stamped(stamps, offsets, now).Keys == stamps.Keys + set o | o in offsets
  {
  }

  lemma RecordCounts(completed: set<int>, grown: set<int>, restored: set<int>, added: set<int>, n: nat)
    requires grown == completed + added && added !! completed && added !! restored
    requires |grown| == |completed| + n
    ensures |grown - restored| == |completed - restored| + n
  {
    assert |added| == n;
    assert grown - restored == (completed - restored) + added;
  }

  /** A processed completion batch, booked as reported, keeps the ledgers of every partition in step. */
  lemma ProcessedBatchFollows(policy: DlqPolicy, trackers: TrackerMap, ledger: Ledger, events: seq<Event>, outcomes: nat -> bool,
                              tp: TopicPartition, s: Slot, restored: set<int>, retried: bool, now: real)
    requires tp in trackers && Follows(s, trackers[tp], restored)
    ensures var b := ProcessBatch(policy, trackers, ledger, events, outcomes);
            tp in b.trackers && Follows(RecordSlot(s, OffsetsFor(b.completed, tp), retried, now), b.trackers[tp], restored)
  {
    ReportIsExact(policy, trackers, ledger, events, outcomes);
    var b := ProcessBatch(policy, trackers, ledger, events, outcomes);
    RecordFollows(s, trackers[tp], b.trackers[tp], restored, OffsetsFor(b.completed, tp), retried, now);
  }

  lemma CommitFollows(s: Slot, t: Tracker, restored: set<int>, safe: int)
    requires Follows(s, t, restored)
    ensures var t' := CommitThrough(t, safe);
            var s' := ClearSlot(s, t'.completed, safe);
            Follows(s', t', restored) && s'.count == |t'.completed| && (s'.dirty <==> t'.completed != {})
  {
  }

  // ----- whole runs, watching the ledgers of one partition

  datatype Watch = Watch(books: Runs.Books, slot: Slot)

  predicate RetriedIn(s: Runs.Books, tp: TopicPartition) {
    tp in s.trackers && exists i :: 0 <= i < |s.ledger| && s.ledger[i].tp == tp
  }

  /** A batch that completed nothing anywhere books nothing. */
  function BookBatch(w: Watch, b: Completion.Batch, tp: TopicPartition, now: real): Slot {
    var offsets := OffsetsFor(b.completed, tp);
    if b.completed == [] then w.slot else RecordSlot(w.slot, offsets, RetriedIn(w.books, tp) || offsets != [], now)
  }

  function SlotAfter(cfg: Runs.Settings, tp: TopicPartition, w: Watch, op: Runs.Op): Slot {
    match op
    case Processed(events, outcomes, now) =>
      BookBatch(w, ProcessBatch(cfg.dlq, w.books.trackers, w.books.ledger, events, outcomes), tp, now)
    case Committed(plan) =>
      if tp in plan then ClearSlot(w.slot, CompletedOf(Runs.Do(cfg, w.books, op).trackers, tp), plan[tp]) else w.slot
    case CommitFailed(retained) => w.slot.(dirty := w.slot.dirty || tp in retained)
    case Revoked(tps) => if tp in tps then Slot(false, 0, map[]) else w.slot
    case _ => w.slot
  }

  function Apply(cfg: Runs.Settings, tp: TopicPartition, w: Watch, op: Runs.Op): Watch {
    Watch(Runs.Do(cfg, w.books, op), SlotAfter(cfg, tp, w, op))
  }

  function RunWatch(cfg: Runs.Settings, tp: TopicPartition, w: Watch, ops: seq<Runs.Op>): Watch
    decreases |ops|
  {
    if ops == [] then w else RunWatch(cfg, tp, Apply(cfg, tp, w, ops[0]), ops[1..])
  }

  ghost predicate InStep(w: Watch, tp: TopicPartition, restored: set<int>) {
    tp in w.books.trackers && Follows(w.slot, w.books.trackers[tp], restored)
  }

  lemma BatchInStep(cfg: Runs.Settings, tp: TopicPartition, w: Watch, op: Runs.Op, restored: set<int>)
    requires InStep(w, tp, restored) && op.Processed?
    ensures InStep(Apply(cfg, tp, w, op), tp, restored)
  {
    var b := ProcessBatch(cfg.dlq, w.books.trackers, w.books.ledger, op.events, op.outcomes);
    var retried := b.completed != [] && (RetriedIn(w.books, tp) || OffsetsFor(b.completed, tp) != []);
    ProcessedBatchFollows(cfg.dlq, w.books.trackers, w.books.ledger, op.events, op.outcomes, tp, w.slot, restored, retried, op.now);
    NothingBooked(w.slot, op.now);
  }

  lemma NothingBooked(s: Slot, now: real)
    ensures RecordSlot(s, [], false, now) == s
  {
    NothingStamped(s.stamps, now);
  }

  lemma StepInStep(cfg: Runs.Settings, tp: TopicPartition, w: Watch, op: Runs.Op, restored: set<int>)
    requires InStep(w, tp, restored) && !Runs.Rebalances(op, tp)
    ensures InStep(Apply(cfg, tp, w, op), tp, restored)
  {
    match op {
      case Processed(_, _, _) => BatchInStep(cfg, tp, w, op, restored);
      case Committed(plan) =>
        if tp in plan {
          CommitFollows(w.slot, w.books.trackers[tp], restored, plan[tp]);
        }
      case _ =>
    }
  }

  /**
   Over every run of batches, fetches, commits, failed commits and rebalances of other
   partitions the ledgers of a partition keep following its tracker.
   */
  lemma {:induction false} LedgersFollow(cfg: Runs.Settings, tp: TopicPartition, w: Watch, ops: seq<Runs.Op>, restored: set<int>)
    requires InStep(w, tp, restored)
    requires forall i :: 0 <= i < |ops| ==> !Runs.Rebalances(ops[i], tp)
    ensures InStep(RunWatch(cfg, tp, w, ops), tp, restored)
    decreases |ops|
  {
    if ops != [] {
      StepInStep(cfg, tp, w, ops[0], restored);
      LedgersFollow(cfg, tp, Apply(cfg, tp, w, ops[0]), ops[1..], restored);
    }
  }

  /**
   A timestamp keeps its time as long as its offset is unsettled, and a new one is the time of
   the batch that completed the offset.
   */
  lemma StampsKeepTheirTime(cfg: Runs.Settings, tp: TopicPartition, w: Watch, op: Runs.Op, restored: set<int>, o: int)
    requires InStep(w, tp, restored) && o in SlotAfter(cfg, tp, w, op).stamps
    ensures o in w.slot.stamps ==> SlotAfter(cfg, tp, w, op).stamps[o] == w.slot.stamps[o]
    ensures o !in w.slot.stamps ==> op.Processed? && SlotAfter(cfg, tp, w, op).stamps[o] == op.now
  {
    if op.Processed? {
      var b := ProcessBatch(cfg.dlq, w.books.trackers, w.books.ledger, op.events, op.outcomes);
      ReportIsExact(cfg.dlq, w.books.trackers, w.books.ledger, op.events, op.outcomes);
      assert GrewBy(w.books.trackers[tp], b.trackers[tp], OffsetsFor(b.completed, tp));
    }
  }

  predicate CompletesSome(cfg: Runs.Settings, books: Runs.Books, op: Runs.Op) {
    op.Processed? && ProcessBatch(cfg.dlq, books.trackers, books.ledger, op.events, op.outcomes).completed != []
  }

  /**
   Commit intent: a batch that completed anything leaves the partitions with dead-letter retries
   dirty, and so does a failed commit those it retains; a partition stops being dirty only when
   everything completed in it is committed, or it is revoked.
   */
  lemma IntentIsKept(cfg: Runs.Settings, tp: TopicPartition, w: Watch, op: Runs.Op)
    requires tp in w.books.trackers
    ensures var dirty := SlotAfter(cfg, tp, w, op).dirty;
            && (op.CommitFailed? && tp in op.retained ==> dirty)
            && (CompletesSome(cfg, w.books, op) && (exists e :: e in w.books.ledger && e.tp == tp) ==> dirty)
            && (w.slot.dirty && !dirty ==>
                  || (op.Revoked? && tp in op.tps)
                  || (op.Committed? && tp in op.plan && Runs.Do(cfg, w.books, op).trackers[tp].completed == {}))
  {
    if e :| e in w.books.ledger && e.tp == tp {
      var i :| 0 <= i < |w.books.ledger| && w.books.ledger[i] == e;
      assert w.books.ledger[i].tp == tp;
    }
  }

  /** After a revoke and a new assignment the ledgers start in step, whatever the metadata restored. */
  lemma AssignmentStartsInStep(cfg: Runs.Settings, tp: TopicPartition, w: Watch, tps: set<TopicPartition>,
                               stored: Option<Stored>, start: int, metadata: string)
    requires tp in tps
    ensures var t := Rebuild(cfg.rebalance, stored, start, metadata);
            var w' := RunWatch(cfg, tp, w, [Runs.Revoked(tps), Runs.Assigned(tp, stored, start, metadata)]);
            InStep(w', tp, t.completed) && w'.books.trackers[tp] == t && w'.slot == Slot(false, 0, map[])
  {
    var w1 := Apply(cfg, tp, w, Runs.Revoked(tps));
    var w2 := Apply(cfg, tp, w1, Runs.Assigned(tp, stored, start, metadata));
    var ops := [Runs.Revoked(tps), Runs.Assigned(tp, stored, start, metadata)];
    assert ops[1..] == [ops[1]];
    assert RunWatch(cfg, tp, w, ops) == RunWatch(cfg, tp, w1, ops[1..]) == w2;
    var t := w2.books.trackers[tp];
    assert t.completed - t.completed == {};
  }

  /**
   For a partition that was not restored from metadata: after every run the unsettled
   count is the number of completed offsets, the stamps name exactly those offsets,
   and the partition is dirty while there are any, so no failed commit loses intent.
   */
  lemma LedgersAreExact(cfg: Runs.Settings, tp: TopicPartition, books: Runs.Books, ops: seq<Runs.Op>)
    requires tp in books.trackers && books.trackers[tp].completed == {}
    requires forall i :: 0 <= i < |ops| ==> !Runs.Rebalances(ops[i], tp)
    ensures var w := RunWatch(cfg, tp, Watch(books, Slot(false, 0, map[])), ops);
            && tp in w.books.trackers
            && w.slot.count == |w.books.trackers[tp].completed|
            && w.slot.stamps.Keys == w.books.trackers[tp].completed
            && (w.books.trackers[tp].completed != {} ==> w.slot.dirty)
  {
    var w0 := Watch(books, Slot(false, 0, map[]));
    assert books.trackers[tp].completed - {} == {};
    LedgersFollow(cfg, tp, w0, ops, {});
    var w := RunWatch(cfg, tp, w0, ops);
    assert w.books.trackers[tp].completed - {} == w.books.trackers[tp].completed;
  }

  // ----- the mutable ledgers

  class SettlementLedgers {
    var dirty: set<TopicPartition>
    var unsettled: map<TopicPartition, int>
    var timestamps: map<TopicPartition, Stamps>
    var completionsSinceLastCommit: int

    constructor ()
      ensures forall tp :: SlotOf(tp) == Slot(false, 0, map[])
      ensures completionsSinceLastCommit == 0
    {
      dirty, unsettled, timestamps, completionsSinceLastCommit := {}, map[], map[], 0;
    }

    ghost function SlotOf(tp: TopicPartition): Slot
      reads this
    {
      Slot(tp in dirty,
           if tp in unsettled then unsettled[tp] else 0,
           if tp in timestamps then timestamps[tp] else map[])
    }

    /** Books a batch's report; a batch that completed nothing books nothing. */
    method RecordProcessedCompletions(report: Report, retried: set<TopicPartition>, now: real)
      modifies this
      ensures forall tp :: SlotOf(tp) == if report.count == 0 then old(SlotOf(tp)) else
                RecordSlot(old(SlotOf(tp)), OffsetsIn(report, tp), tp in retried || tp in report.offsets, now)
      ensures completionsSinceLastCommit == old(completionsSinceLastCommit) + report.count
    {
      if report.count == 0 {
        return;
      }
      dirty := dirty + report.offsets.Keys + retried;
      CountCompletions(report);
      StampCompletions(report, now);
      completionsSinceLastCommit := completionsSinceLastCommit + report.count;
    }

    method CountCompletions(report: Report)
      modifies this`unsettled
      ensures forall tp :: Count(unsettled, tp) == Count(old(unsettled), tp) + |OffsetsIn(report, tp)|
    {
      var left := report.offsets.Keys;
      while left != {}
        invariant left <= report.offsets.Keys
        invariant forall tp :: Count(unsettled, tp) ==
                    Count(old(unsettled), tp) + (if tp in left then 0 else |OffsetsIn(report, tp)|)
        decreases left
      {
        EmptyOrInhabited(left);
        var tp :| tp in left;
        unsettled := unsettled[tp := (if tp in unsettled then unsettled[tp] else 0) + |report.offsets[tp]|];
        left := left - {tp};
      }
    }

    method StampCompletions(report: Report, now: real)
      modifies this`timestamps
      ensures forall tp :: StampsOf(timestamps, tp) ==
                Stamped(StampsOf(old(timestamps), tp), OffsetsIn(report, tp), now)
    {
      forall tp { NothingStamped(StampsOf(timestamps, tp), now); }
      var left := report.offsets.Keys;
      while left != {}
        invariant left <= report.offsets.Keys
        invariant forall tp :: StampsOf(timestamps, tp) ==
                    if tp in left then StampsOf(old(timestamps), tp)
                    else Stamped(StampsOf(old(timestamps), tp), OffsetsIn(report, tp), now)
        decreases left
      {
        EmptyOrInhabited(left);
        var tp :| tp in left;
        timestamps := timestamps[tp := Stamped(if tp in timestamps then timestamps[tp] else map[], report.offsets[tp], now)];
        left := left - {tp};
      }
    }

    /** Clears or retains the ledgers of every partition of a successful commit, in turn. */
    method ClearCommittedDirtyPartitions(trackers: TrackerMap, commits: seq<(TopicPartition, int)>)
      modifies this
      ensures forall tp :: SlotOf(tp) == ClearedSlot(old(SlotOf(tp)), trackers, commits, tp)
      ensures completionsSinceLastCommit == if dirty == {} then 0 else old(completionsSinceLastCommit)
    {
      var i := 0;
      while i < |commits|
        invariant 0 <= i <= |commits|
        invariant forall tp :: SlotOf(tp) == ClearedSlot(old(SlotOf(tp)), trackers, commits[..i], tp)
        invariant completionsSinceLastCommit == old(completionsSinceLastCommit)
      {
        assert commits[..i + 1][..i] == commits[..i];
        ClearOne(commits[i].0, CompletedOf(trackers, commits[i].0), commits[i].1);
        i := i + 1;
      }
      assert commits[..i] == commits;
      if dirty == {} {
        completionsSinceLastCommit := 0;
      }
    }

    method ClearOne(tp: TopicPartition, completed: set<int>, safe: int)
      modifies this`dirty, this`unsettled, this`timestamps
      ensures SlotOf(tp) == ClearSlot(old(SlotOf(tp)), completed, safe)
      ensures forall other :: other != tp ==> SlotOf(other) == old(SlotOf(other))
    {
      if tp in timestamps && timestamps[tp] != map[] {
        var retained := Retained(timestamps[tp], completed, safe);
        timestamps := if retained != map[] then timestamps[tp := retained] else timestamps - {tp};
      }
      if |completed| > 0 {
        dirty := dirty + {tp};
        unsettled := unsettled[tp := |completed|];
      } else {
        dirty := dirty - {tp};
        unsettled := unsettled - {tp};
        timestamps := timestamps - {tp};
      }
    }
  }

  function OffsetsIn(report: Report, tp: TopicPartition): seq<int> {
    if tp in report.offsets then report.offsets[tp] else []
  }

  function Count(unsettled: map<TopicPartition, int>, tp: TopicPartition): int {
    if tp in unsettled then unsettled[tp] else 0
  }

  function StampsOf(timestamps: map<TopicPartition, Stamps>, tp: TopicPartition): Stamps {
    if tp in timestamps then timestamps[tp] else map[]
  }

  function CompletedOf(trackers: TrackerMap, tp: TopicPartition): set<int> {
    if tp in trackers then trackers[tp].completed else {}
  }

  function ClearedSlot(s: Slot, trackers: TrackerMap, commits: seq<(TopicPartition, int)>, tp: TopicPartition): Slot {
    if commits == [] then s
    else
      var front, last := commits[..|commits| - 1], commits[|commits| - 1];
      var before := ClearedSlot(s, trackers, front, tp);
      if last.0 == tp then ClearSlot(before, CompletedOf(trackers, tp), last.1) else before
  }

  lemma NothingStamped(stamps: Stamps, now: real)
    ensures Stamped(stamps, [], now) == stamps
  {
  }
}
