/**
 Handing a partition over: what a commit carries besides its position, what a
 revoke prepares, and the tracker an assignment rebuilds from the broker's answer.
 */
module Handoff {
  import opened Common
  import opened Offsets
  import opened TrackerState
  import opened MetadataEncoder
  import opened Trackers

  /** The rebalance settings: metadata strategy, snapshot cap, text limit. */
  datatype Policy = Policy(snapshot: bool, maxCompleted: nat, maxText: int)

  /** What the broker stores for a partition. */
  datatype Stored = Stored(position: int, metadata: string)

  /** The lowest completed offsets from `base` on, at most `cap` of them. */
  function MetadataOffsets(t: Tracker, base: int, cap: nat): set<int> {
    var order := Sorted(From(t.completed, base));
    var kept := order[..if |order| < cap then |order| else cap];
    set o | o in kept
  }

  function CommitMetadata(policy: Policy, t: Tracker, base: int): string {
    if policy.snapshot then Encode(MetadataOffsets(t, base, policy.maxCompleted), base, policy.maxText) else ""
  }

  function DecodedCompletions(policy: Policy, metadata: string, lastCommitted: int): set<int> {
    if policy.snapshot then set o | o in Decode(metadata) && o > lastCommitted else {}
  }

  /**
   The tracker of a new assignment. `committed` is the broker's answer, None when the
   lookup failed; `start` and `metadata` come with the assigned partition itself.
   */
  function Rebuild(policy: Policy, committed: Option<Stored>, start: int, metadata: string): Tracker {
    var last := LastCommitted(committed, start);
    var done := DecodedCompletions(policy, RawMetadata(committed, metadata), last);
    Tracker(last, done, if done == {} then last else Largest(done), 1)
  }

  function LastCommitted(committed: Option<Stored>, start: int): int {
    if committed.Some? && committed.value.position >= 0 then committed.value.position - 1
    else if start > 0 then start - 1 else -1
  }

  function RawMetadata(committed: Option<Stored>, metadata: string): string {
    if committed.Some? && committed.value.metadata != "" then committed.value.metadata else metadata
  }

  /** Builds the tracker object the way the assignment code does, in three mutations. */
  method BuildAssignment(policy: Policy, committed: Option<Stored>, start: int, metadata: string)
    returns (tracker: OffsetTracker)
    ensures fresh(tracker) && tracker.Valid()
    ensures tracker.State() == Rebuild(policy, committed, start, metadata)
  {
    var startingOffset := if committed.Some? && committed.value.position > -1001 then committed.value.position else start;
    var last := LastCommitted(committed, start);
    var raw := RawMetadata(committed, metadata);
    var initial: set<int> := {};
    if policy.snapshot {
      var decoded := DecodeMetadata(raw);
      initial := set o | o in decoded && o > last;
    }
    tracker := new OffsetTracker(startingOffset, initial);
    var fetched := if initial == {} then last else Largest(initial);
    var accepted := tracker.RehydrateAssignmentState(last, fetched);
    assert accepted;
    tracker.IncrementEpoch();
  }

  // ----- the snapshot

  lemma MetadataOffsetsAreLowest(t: Tracker, base: int, cap: nat)
    ensures var past := From(t.completed, base);
            var kept := MetadataOffsets(t, base, cap);
            && kept <= past
            && |kept| == (if |past| < cap then |past| else cap)
            && forall x, y :: x in kept && y in past && y !in kept ==> x < y
  {
    var past := From(t.completed, base);
    var order := Sorted(past);
    var n := if |order| < cap then |order| else cap;
    PrefixOfOrder(order, n);
    assert forall x :: x in order <==> x in past;
  }

  lemma PrefixOfOrder(order: seq<int>, n: nat)
    requires Ascending(order) && n <= |order|
    ensures |set o | o in order[..n]| == n
    ensures forall x :: x in order[..n] ==> x in order
    ensures forall x, y :: x in order[..n] && y in order && y !in order[..n] ==> x < y
  {
    DistinctCount(order[..n]);
    var kept := order[..n];
    assert forall k :: 0 <= k < n ==> order[k] == kept[k] && kept[k] in kept;
    forall x, y | x in kept && y in order && y !in kept ensures x < y {
      var i :| 0 <= i < |kept| && kept[i] == x;
      var j :| 0 <= j < |order| && order[j] == y;
      assert i < n <= j;
    }
  }

  lemma {:induction false} DistinctCount(order: seq<int>)
    requires Ascending(order)
    ensures |set o | o in order| == |order|
  {
    if order == [] {
      assert (set o | o in order) == {};
    } else {
      var last, front := order[|order| - 1], order[..|order| - 1];
      DistinctCount(front);
      assert order == front + [last];
      OneMoreOf(front, last);
      assert last !in front;
    }
  }

  lemma MetadataOffsetsPast(t: Tracker, base: int, cap: nat)
    ensures forall o :: o in MetadataOffsets(t, base, cap) ==> o in t.completed && o >= base
  {
    var order := Sorted(From(t.completed, base));
    var n := if |order| < cap then |order| else cap;
    assert forall x :: x in order[..n] ==> x in order;
  }

  /** Whatever a commit's metadata decodes to had been completed, past the committed position. */
  lemma MetadataIsCompleted(policy: Policy, t: Tracker, base: int)
    requires base >= 0
    ensures forall o :: o in Decode(CommitMetadata(policy, t, base)) ==> o in t.completed && o >= base
  {
    if policy.snapshot {
      var kept := MetadataOffsets(t, base, policy.maxCompleted);
      MetadataOffsetsPast(t, base, policy.maxCompleted);
      MetadataRoundTrip(kept, base, policy.maxText);
    }
  }

  ghost function Past(completed: set<int>, base: int): set<int> {
    set o | o in completed && o >= base
  }

  /** `kept` are the lowest offsets of `past`, at most `cap` of them. */
  ghost predicate LowestOf(kept: set<int>, past: set<int>, cap: nat) {
    && kept <= past && |kept| == (if |past| < cap then |past| else cap)
    && forall x, y :: x in kept && y in past && y !in kept ==> x < y
  }

  /** Neither full text of the offsets fits the limit. */
  ghost predicate TooLong(offsets: set<int>, base: int, max: int) {
    |"R" + RleText(offsets)| > max && |"B" + BitsetText(offsets, base)| > max
  }

  /** The offsets `got` are the lowest of `past` up to the cap, or none when neither text of those fits. */
  ghost predicate HandedOver(policy: Policy, past: set<int>, base: int, got: set<int>) {
    exists kept :: LowestOf(kept, past, policy.maxCompleted)
                   && got == if TooLong(kept, base, policy.maxText) then {} else kept
  }

  /**
   The text `metadata` hands over the completions from `base` on: with snapshots on the lowest
   of them up to the cap, none only when neither text of those fits; with snapshots off nothing.
   */
  ghost predicate Carries(policy: Policy, completed: set<int>, base: int, metadata: string) {
    if policy.snapshot then metadata != "" && HandedOver(policy, Past(completed, base), base, Decode(metadata))
    else metadata == ""
  }

  lemma CommitCarries(policy: Policy, t: Tracker, base: int)
    requires base >= 0
    ensures Carries(policy, t.completed, base, CommitMetadata(policy, t, base))
  {
    if policy.snapshot {
      var kept := MetadataOffsets(t, base, policy.maxCompleted);
      MetadataOffsetsPast(t, base, policy.maxCompleted);
      MetadataOffsetsAreLowest(t, base, policy.maxCompleted);
      MetadataRoundTrip(kept, base, policy.maxText);
      EncodeIsNotEmpty(kept, base, policy.maxText);
      OverflowMeansTooLong(kept, base, policy.maxText);
      assert Past(t.completed, base) == From(t.completed, base);
      assert LowestOf(kept, Past(t.completed, base), policy.maxCompleted);
    }
  }

  lemma OverflowMeansTooLong(offsets: set<int>, base: int, max: int)
    ensures Encode(offsets, base, max) == "O" <==> TooLong(offsets, base, max)
  {
    EncodeIsShortest(offsets, base, max);
    assert ("R" + RleText(offsets))[0] == 'R' && ("B" + BitsetText(offsets, base))[0] == 'B';
  }

  // ----- what an assignment takes over

  /**
   The tracker of an assignment, by what the broker stores and what comes along: it starts just
   behind the stored position, or else behind the start; it holds the offsets of the stored
   text, or else of the text that came along, past that; nothing with snapshots off.
   */
  ghost predicate TakesOver(policy: Policy, stored: Option<Stored>, start: int, metadata: string, t: Tracker) {
    && t.committed == (if stored.Some? && stored.value.position >= 0 then stored.value.position - 1
                       else if start > 0 then start - 1 else -1)
    && (forall o :: o in t.completed <==>
          && policy.snapshot && o > t.committed
          && o in Decode(if stored.Some? && stored.value.metadata != "" then stored.value.metadata else metadata))
    && t.committed <= t.fetched && (forall o :: o in t.completed ==> o <= t.fetched)
    && (t.fetched == t.committed || t.fetched in t.completed)
    && t.epoch == 1
  }

  lemma RebuildTakesOver(policy: Policy, stored: Option<Stored>, start: int, metadata: string)
    ensures TakesOver(policy, stored, start, metadata, Rebuild(policy, stored, start, metadata))
  {
  }

  /**
   Handoff: a tracker built from a stored commit that carries `completed` starts right
   behind its position and holds exactly the lowest completed offsets past it up to the cap, none
   only when neither text of them fits.
   */
  lemma HandoffPreservesMeaning(policy: Policy, completed: set<int>, stored: Stored, start: int, metadata: string, next: Tracker)
    requires policy.snapshot && stored.position >= 0
    requires Carries(policy, completed, stored.position, stored.metadata)
    requires TakesOver(policy, Some(stored), start, metadata, next)
    ensures next.committed == stored.position - 1 && Clean(next) && next.completed <= completed
    ensures HandedOver(policy, Past(completed, stored.position), stored.position, next.completed)
  {
    HandedOverIsPast(policy, Past(completed, stored.position), stored.position, Decode(stored.metadata));
    TakesTextOver(policy, stored, start, metadata, next, Decode(stored.metadata));
  }

  lemma HandedOverIsPast(policy: Policy, past: set<int>, base: int, got: set<int>)
    requires HandedOver(policy, past, base, got)
    ensures got <= past
  {
  }

  lemma TakesTextOver(policy: Policy, stored: Stored, start: int, metadata: string, next: Tracker, carried: set<int>)
    requires policy.snapshot && stored.position >= 0 && stored.metadata != ""
    requires Decode(stored.metadata) == carried && forall o :: o in carried ==> o >= stored.position
    requires TakesOver(policy, Some(stored), start, metadata, next)
    ensures next.committed == stored.position - 1 && next.completed == carried
  {
    forall o ensures o in next.completed <==> o in carried {
    }
  }

  lemma EncodeIsNotEmpty(offsets: set<int>, base: int, max: int)
    ensures Encode(offsets, base, max) != ""
  {
  }

  /** After a handoff, dispatch skips an offset only if the previous owner had completed it. */
  lemma SkippedOffsetsWereCompleted(policy: Policy, t: Tracker, base: int, start: int, metadata: string, o: int)
    requires policy.snapshot && base >= 0
    requires CompletedUncommitted(Rebuild(policy, Some(Stored(base, CommitMetadata(policy, t, base))), start, metadata), o)
    ensures o in t.completed && o >= base
  {
    var stored := Stored(base, CommitMetadata(policy, t, base));
    CommitCarries(policy, t, base);
    RebuildTakesOver(policy, Some(stored), start, metadata);
    HandoffPreservesMeaning(policy, t.completed, stored, start, metadata, Rebuild(policy, Some(stored), start, metadata));
  }

  // ----- revoke

  /** The tracker after revoke preparation, and the commit to send, if any. */
  datatype Prepared = Prepared(tracker: Tracker, commit: Option<Stored>)

  /** `candidate` is the coordinator's furthest remaining (epoch, offset) of the partition. */
  function PrepareRevoke(policy: Policy, t: Tracker, candidate: Option<(int, int)>): Prepared {
    var advanced := AdvanceHighWaterMark(t);
    var safe :=
      if candidate.Some? && candidate.value.0 == t.epoch && candidate.value.1 > advanced.committed
      then candidate.value.1 else advanced.committed;
    Prepared(advanced, if safe < 0 then None else Some(Stored(safe + 1, CommitMetadata(policy, advanced, safe + 1))))
  }

  /**
   A prepared revoke commit is never behind what is known to be safe: it reaches the end of
   the tracker's contiguous prefix and the coordinator's candidate of the same epoch, is one
   of the two, and leaves the tracker advanced to its own prefix.
   */
  lemma RevokeCommitsFurthest(policy: Policy, t: Tracker, candidate: Option<(int, int)>)
    requires Clean(t)
    ensures var p := PrepareRevoke(policy, t, candidate);
            var end := ContiguousEnd(t.committed, t.completed);
            var mine := candidate.Some? && candidate.value.0 == t.epoch;
            && p.tracker.committed == end
            && (p.commit.None? <==> end < 0 && (mine ==> candidate.value.1 < 0))
            && (p.commit.Some? ==>
                  && p.commit.value.position > end
                  && (mine ==> p.commit.value.position > candidate.value.1)
                  && (p.commit.value.position == end + 1 || (mine && p.commit.value.position == candidate.value.1 + 1)))
  {
  }

  /** A revoke commit carries the completions past its position. */
  lemma RevokeCarries(policy: Policy, t: Tracker, candidate: Option<(int, int)>)
    requires Clean(t) && PrepareRevoke(policy, t, candidate).commit.Some?
    ensures var stored := PrepareRevoke(policy, t, candidate).commit.value;
            stored.position > 0 && Carries(policy, t.completed, stored.position, stored.metadata)
  {
    var p := PrepareRevoke(policy, t, candidate);
    RevokedCompletions(policy, t, candidate);
    CommitCarries(policy, p.tracker, p.commit.value.position);
    SamePastCarries(policy, p.tracker.completed, t.completed, p.commit.value.position, p.commit.value.metadata);
  }

  lemma RevokedCompletions(policy: Policy, t: Tracker, candidate: Option<(int, int)>)
    requires Clean(t) && PrepareRevoke(policy, t, candidate).commit.Some?
    ensures var p := PrepareRevoke(policy, t, candidate);
            var base := p.commit.value.position;
            && base > 0 && p.commit.value.metadata == CommitMetadata(policy, p.tracker, base)
            && forall o :: o >= base ==> (o in p.tracker.completed <==> o in t.completed)
  {
  }

  lemma SamePastCarries(policy: Policy, completed: set<int>, other: set<int>, base: int, metadata: string)
    requires Carries(policy, completed, base, metadata)
    requires forall o :: o >= base ==> (o in completed <==> o in other)
    ensures Carries(policy, other, base, metadata)
  {
    assert Past(completed, base) == Past(other, base);
  }

  /**
   Handoff through a revoke: the tracker the next owner builds from the revoke commit starts right
   behind its position and holds exactly the lowest offsets this tracker had completed past it.
   */
  lemma RevokeHandsOver(policy: Policy, t: Tracker, candidate: Option<(int, int)>, start: int, metadata: string)
    requires policy.snapshot && Clean(t) && PrepareRevoke(policy, t, candidate).commit.Some?
    ensures var stored := PrepareRevoke(policy, t, candidate).commit.value;
            var next := Rebuild(policy, Some(stored), start, metadata);
            && next.committed == stored.position - 1 && next.completed <= t.completed
            && HandedOver(policy, Past(t.completed, stored.position), stored.position, next.completed)
  {
    var stored := PrepareRevoke(policy, t, candidate).commit.value;
    RevokeCarries(policy, t, candidate);
    RebuildTakesOver(policy, Some(stored), start, metadata);
    HandoffPreservesMeaning(policy, t.completed, stored, start, metadata, Rebuild(policy, Some(stored), start, metadata));
  }
}
