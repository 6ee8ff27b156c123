/**
 The mutable commit coordinator. Each method is one synchronous section between
 await points, and is proved to compute the matching function of CoordinatorState.
 */
module CommitCoordinators {
  import opened Common
  import opened CoordinatorState

  datatype Taken = Ignored | NoRoom | Taken(replaced: bool)

  class CommitCoordinator {
    const queueMaxPartitions: int
    var pending: Outbox
    var inFlight: Outbox
    var cancelledLeases: set<Lease>
    var stoppedPartitions: set<TopicPartition>
    var latestSettledOffsets: map<TopicPartition, int>
    var leaseCounter: nat
    var accepting: bool
    var healthy: bool
    var coalescedCount: nat
    var failureCount: nat

    ghost function State(): Coordinator
      reads this
    {
      Coordinator(pending, inFlight, cancelledLeases, stoppedPartitions, latestSettledOffsets,
                  leaseCounter, accepting, healthy, coalescedCount, failureCount)
    }

    constructor (queueMaxPartitions: int)
      ensures State() == EMPTY && this.queueMaxPartitions == queueMaxPartitions
    {
      this.queueMaxPartitions := queueMaxPartitions;
      pending, inFlight, cancelledLeases := map[], map[], {};
      stoppedPartitions, latestSettledOffsets := {}, map[];
      leaseCounter, accepting, healthy, coalescedCount, failureCount := 0, true, true, 0, 0;
    }

    method PruneCancelledLeases()
      modifies this
      ensures State() == Prune(old(State()))
    {
      cancelledLeases := cancelledLeases * (Leases(pending) + Leases(inFlight));
    }

    /** Puts `x` into the outbox under a fresh lease; the lease it replaces is cancelled. */
    method PutCandidate(x: Candidate)
      modifies this
      ensures State() == Prune(Replace(old(State()), x))
    {
      if x.tp in pending {
        cancelledLeases := cancelledLeases + {LeaseOf(pending[x.tp])};
      }
      leaseCounter := leaseCounter + 1;
      pending := pending[x.tp := x.(lease := leaseCounter)];
      PruneCancelledLeases();
    }

    method TakeCandidate(x: Candidate) returns (taken: Taken)
      modifies this
      ensures match EnqueueOne(old(State()), x, queueMaxPartitions)
              case Skipped => taken == Ignored && State() == old(State())
              case Full => taken == NoRoom && State() == old(State())
              case Queued(c, replaced) => taken == Taken(replaced) && State() == c
    {
      if x.tp in stoppedPartitions {
        return Ignored;
      }
      var latestSettled := if x.tp in latestSettledOffsets then latestSettledOffsets[x.tp] else -1;
      if x.offset <= latestSettled {
        return Ignored;
      }
      if x.tp in pending {
        if x.offset <= pending[x.tp].offset {
          return Ignored;
        }
      } else {
        if x.tp in inFlight && x.offset <= inFlight[x.tp].offset {
          return Ignored;
        }
        var projected := |pending| + |inFlight|;
        if x.tp !in inFlight {
          projected := projected + 1;
        }
        if projected > queueMaxPartitions {
          return NoRoom;
        }
      }
      taken := Taken(x.tp in pending);
      PutCandidate(x);
    }

    /** Queues the candidates in turn, or restores the snapshot when the outbox is full. */
    method EnqueueCandidates(candidates: seq<Candidate>) returns (accepted: bool)
      modifies this
      ensures (State(), accepted) == Enqueue(old(State()), candidates, queueMaxPartitions)
    {
      if !accepting || !healthy {
        return false;
      }
      var pendingSnapshot, cancelledSnapshot := pending, cancelledLeases;
      var leaseCounterSnapshot, coalescedSnapshot := leaseCounter, coalescedCount;
      var room, coalescedDelta := TakeCandidates(candidates);
      if !room {
        pending, cancelledLeases := pendingSnapshot, cancelledSnapshot;
        leaseCounter, coalescedCount := leaseCounterSnapshot, coalescedSnapshot;
        failureCount := failureCount + 1;
        return false;
      }
      coalescedCount := coalescedCount + coalescedDelta;
      return true;
    }

    /** Takes the candidates in turn until the outbox is full, counting the replaced ones. */
    method TakeCandidates(candidates: seq<Candidate>) returns (room: bool, coalescedDelta: nat)
      modifies this
      ensures State() == old(State()).(pending := pending, cancelled := cancelledLeases, leaseCounter := leaseCounter)
      ensures EnqueueAll(old(State()), candidates, queueMaxPartitions, 0) == if room then Some((State(), coalescedDelta)) else None
    {
      ghost var before := State();
      coalescedDelta := 0;
      var i := 0;
      assert candidates[0..] == candidates;
      while i < |candidates|
        invariant 0 <= i <= |candidates|
        invariant State() == before.(pending := pending, cancelled := cancelledLeases, leaseCounter := leaseCounter)
        invariant EnqueueAll(before, candidates, queueMaxPartitions, 0) ==
                  EnqueueAll(State(), candidates[i..], queueMaxPartitions, coalescedDelta)
      {
        NextCandidate(State(), candidates, i, queueMaxPartitions, coalescedDelta);
        var taken := TakeCandidate(candidates[i]);
        if taken.NoRoom? {
          return false, coalescedDelta;
        }
        if taken.Taken? && taken.replaced {
          coalescedDelta := coalescedDelta + 1;
        }
        i := i + 1;
      }
      return true, coalescedDelta;
    }

    method StopAccepting()
      modifies this
      ensures State() == old(State()).(accepting := false)
    {
      accepting := false;
    }

    method WithdrawPartition(tp: TopicPartition)
      modifies this
      ensures State() == WithdrawStep(old(State()), tp)
    {
      stoppedPartitions := stoppedPartitions + {tp};
      if tp in pending {
        cancelledLeases := cancelledLeases + {LeaseOf(pending[tp])};
      }
      pending := pending - {tp};
    }

    method StopAcceptingPartitions(tps: seq<TopicPartition>)
      modifies this
      ensures State() == StopPartitions(old(State()), Members(tps))
    {
      ghost var before := State();
      WithdrawNone(before);
      var i := 0;
      while i < |tps|
        invariant 0 <= i <= |tps|
        invariant State() == Withdraw(before, Members(tps[..i]))
      {
        NextMember(tps, i);
        WithdrawOne(before, Members(tps[..i]), tps[i]);
        WithdrawPartition(tps[i]);
        i := i + 1;
      }
      assert tps[..i] == tps;
      PruneCancelledLeases();
    }

    method StartAcceptingPartitions(tps: seq<TopicPartition>)
      modifies this
      ensures State() == StartPartitions(old(State()), Members(tps))
    {
      ghost var before := State();
      var i := 0;
      while i < |tps|
        invariant 0 <= i <= |tps|
        invariant State() == before.(stopped := before.stopped - Members(tps[..i]))
      {
        NextMember(tps, i);
        stoppedPartitions := stoppedPartitions - {tps[i]};
        i := i + 1;
      }
      assert tps[..i] == tps;
    }

    method RevokePartition(tp: TopicPartition)
      modifies this
      ensures State() == RevokeStep(old(State()), tp)
    {
      if tp in pending {
        cancelledLeases := cancelledLeases + {LeaseOf(pending[tp])};
      }
      if tp in inFlight {
        cancelledLeases := cancelledLeases + {LeaseOf(inFlight[tp])};
      }
      pending, inFlight := pending - {tp}, inFlight - {tp};
    }

    method CancelLeases(tps: seq<TopicPartition>)
      modifies this
      ensures State() == CoordinatorState.CancelLeases(old(State()), Members(tps))
    {
      RevokePartitions(tps);
      PruneCancelledLeases();
    }

    method RevokePartitions(tps: seq<TopicPartition>)
      modifies this
      ensures State() == Revoke(old(State()), Members(tps))
    {
      ghost var before := State();
      RevokeNone(before);
      var i := 0;
      while i < |tps|
        invariant 0 <= i <= |tps|
        invariant State() == Revoke(before, Members(tps[..i]))
      {
        NextMember(tps, i);
        RevokeOne(before, Members(tps[..i]), tps[i]);
        RevokePartition(tps[i]);
        i := i + 1;
      }
      assert tps[..i] == tps;
    }

    method IsActiveLease(tp: TopicPartition, epoch: int, lease: int) returns (active: bool)
      ensures active == IsActive(State(), Lease(tp, epoch, lease))
    {
      if Lease(tp, epoch, lease) in cancelledLeases {
        return false;
      }
      return (tp in pending && pending[tp].epoch == epoch && pending[tp].lease == lease)
          || (tp in inFlight && inFlight[tp].epoch == epoch && inFlight[tp].lease == lease);
    }

    /** The further candidate of each partition; in flight wins a tie. */
    method RemainingCandidates() returns (remaining: Outbox)
      ensures remaining == Remaining(State())
    {
      remaining := inFlight;
      var left := pending.Keys;
      while left != {}
        invariant left <= pending.Keys
        invariant remaining == Merge(inFlight, pending, pending.Keys - left)
        decreases left
      {
        EmptyOrInhabited(left);
        var tp :| tp in left;
        if tp !in remaining || pending[tp].offset > remaining[tp].offset {
          remaining := remaining[tp := pending[tp]];
        }
        MergeOne(inFlight, pending, pending.Keys - left, tp);
        left := left - {tp};
        assert pending.Keys - left == (pending.Keys - (left + {tp})) + {tp};
      }
      assert pending.Keys - left == pending.Keys;
    }

    // ----- worker sections

    method BeginBatch() returns (batch: Outbox)
      modifies this
      ensures batch == old(pending) && State() == StartBatch(old(State()))
    {
      batch := pending;
      inFlight := batch;
      pending := map[];
    }

    /** Still active candidates of a failed batch go back to the outbox. */
    method ReturnFailedBatch(batch: Outbox)
      requires Keyed(batch)
      modifies this
      ensures State() == RetryBatch(old(State()), batch)
    {
      ReturnActive(batch);
      inFlight := map[];
      PruneCancelledLeases();
    }

    method ReturnActive(batch: Outbox)
      requires Keyed(batch)
      modifies this
      ensures State() == old(State()).(pending := old(pending) + ActiveOf(old(State()), batch))
    {
      ghost var before := State();
      var left := batch.Keys;
      while left != {}
        invariant left <= batch.Keys
        invariant State() == before.(pending := before.pending + Within(ActiveOf(before, batch), batch.Keys - left))
        decreases left
      {
        EmptyOrInhabited(left);
        var tp :| tp in left;
        var active := IsActiveLease(batch[tp].tp, batch[tp].epoch, batch[tp].lease);
        ReturnOne(before, batch, left, tp);
        if active {
          pending := pending[tp := batch[tp]];
        }
        left := left - {tp};
      }
      assert Within(ActiveOf(before, batch), batch.Keys - left) == ActiveOf(before, batch);
    }

    /** An aborted or crashed batch is given up. */
    method AbandonBatch(batch: Outbox)
      modifies this
      ensures State() == DropBatch(old(State()), batch)
    {
      cancelledLeases := cancelledLeases + Leases(batch);
      inFlight := map[];
      PruneCancelledLeases();
    }

    /** After a broker commit returned: the settlements, recorded as settled. */
    method RecordSuccess(batch: Outbox) returns (settlements: Outbox)
      modifies this
      ensures settlements == ActiveOf(old(State()), batch)
      ensures State() == SettleBatch(old(State()), batch)
    {
      settlements := ActiveBatch(batch);
      latestSettledOffsets := latestSettledOffsets + map tp | tp in settlements :: batch[tp].offset;
    }

    method ActiveBatch(batch: Outbox) returns (active: Outbox)
      ensures active == ActiveOf(State(), batch)
    {
      active := map tp | tp in batch
                         && LeaseOf(batch[tp]) !in cancelledLeases
                         && (Names(pending, LeaseOf(batch[tp])) || Names(inFlight, LeaseOf(batch[tp]))) :: batch[tp];
    }

    method ClearInFlight()
      modifies this
      ensures State() == FinishBatch(old(State()))
    {
      inFlight := map[];
      PruneCancelledLeases();
    }
  }

  // ----- facts the loops rest on

  lemma NextCandidate(c: Coordinator, xs: seq<Candidate>, i: nat, max: int, count: nat)
    requires i < |xs|
    ensures EnqueueAll(c, xs[i..], max, count) ==
            match EnqueueOne(c, xs[i], max)
            case Skipped => EnqueueAll(c, xs[i + 1..], max, count)
            case Full => None
            case Queued(c', replaced) => EnqueueAll(c', xs[i + 1..], max, if replaced then count + 1 else count)
  {
    assert xs[i..][1..] == xs[i + 1..];
  }

  function Members(tps: seq<TopicPartition>): set<TopicPartition> {
    set tp | tp in tps
  }

  lemma NextMember(tps: seq<TopicPartition>, i: nat)
    requires i < |tps|
    ensures Members(tps[..i + 1]) == Members(tps[..i]) + {tps[i]}
  {
  }

  lemma NextWithin(box: Outbox, done: set<TopicPartition>, tp: TopicPartition)
    ensures box - (done + {tp}) == (box - done) - {tp}
    ensures Leases(Within(box, done + {tp})) ==
            Leases(Within(box, done)) + (if tp in box - done then {LeaseOf(box[tp])} else {})
  {
    var more, some := Within(box, done + {tp}), Within(box, done);
    forall l | l in Leases(more) ensures l in Leases(some) || (tp in box - done && l == LeaseOf(box[tp])) {
      var s :| s in more && LeaseOf(more[s]) == l;
      if s in done { assert s in some && LeaseOf(some[s]) == l; }
    }
    forall l | l in Leases(some) ensures l in Leases(more) {
      var s :| s in some && LeaseOf(some[s]) == l;
      assert s in more && LeaseOf(more[s]) == l;
    }
    assert tp in box ==> tp in more && more[tp] == box[tp];
  }

  lemma WithdrawNone(c: Coordinator)
    ensures Withdraw(c, {}) == c
  {
  }

  ghost function WithdrawStep(s: Coordinator, tp: TopicPartition): Coordinator {
    s.(stopped := s.stopped + {tp},
       pending := s.pending - {tp},
       cancelled := if tp in s.pending then s.cancelled + {LeaseOf(s.pending[tp])} else s.cancelled)
  }

  lemma WithdrawOne(c: Coordinator, done: set<TopicPartition>, tp: TopicPartition)
    ensures Withdraw(c, done + {tp}) == WithdrawStep(Withdraw(c, done), tp)
  {
    NextWithin(c.pending, done, tp);
    assert c.stopped + (done + {tp}) == (c.stopped + done) + {tp};
  }

  lemma RevokeNone(c: Coordinator)
    ensures Revoke(c, {}) == c
  {
  }

  ghost function RevokeStep(s: Coordinator, tp: TopicPartition): Coordinator {
    s.(pending := s.pending - {tp},
       inFlight := s.inFlight - {tp},
       cancelled := s.cancelled
                    + (if tp in s.pending then {LeaseOf(s.pending[tp])} else {})
                    + (if tp in s.inFlight then {LeaseOf(s.inFlight[tp])} else {}))
  }

  lemma RevokeOne(c: Coordinator, done: set<TopicPartition>, tp: TopicPartition)
    ensures Revoke(c, done + {tp}) == RevokeStep(Revoke(c, done), tp)
  {
    NextWithin(c.pending, done, tp);
    NextWithin(c.inFlight, done, tp);
    var s := Revoke(c, done);
    Interleaved(c.cancelled, Leases(Within(c.pending, done)), Leases(Within(c.inFlight, done)),
                if tp in s.pending then {LeaseOf(c.pending[tp])} else {},
                if tp in s.inFlight then {LeaseOf(c.inFlight[tp])} else {});
  }

  lemma Interleaved<T>(a: set<T>, p: set<T>, f: set<T>, x: set<T>, y: set<T>)
    ensures a + (p + x) + (f + y) == a + p + f + x + y
  {
  }

  /** `base` overridden by the further candidates of `over` among `tps`. */
  ghost function Merge(base: Outbox, over: Outbox, tps: set<TopicPartition>): Outbox {
    map tp | tp in base.Keys + (over.Keys * tps) ::
      if tp in over && tp in tps && (tp !in base || over[tp].offset > base[tp].offset) then over[tp] else base[tp]
  }

  lemma MergeOne(base: Outbox, over: Outbox, done: set<TopicPartition>, tp: TopicPartition)
    requires tp in over && tp !in done
    ensures Merge(base, over, done + {tp}) ==
            if tp !in base || over[tp].offset > base[tp].offset then Merge(base, over, done)[tp := over[tp]]
            else Merge(base, over, done)
    ensures tp in Merge(base, over, done) <==> tp in base
    ensures tp in base ==> Merge(base, over, done)[tp] == base[tp]
  {
  }

  lemma ReturnOne(c: Coordinator, batch: Outbox, left: set<TopicPartition>, tp: TopicPartition)
    requires Keyed(batch) && left <= batch.Keys && tp in left
    ensures var now := c.(pending := c.pending + Within(ActiveOf(c, batch), batch.Keys - left));
            && (IsActive(now, LeaseOf(batch[tp])) <==> IsActive(c, LeaseOf(batch[tp])))
            && c.pending + Within(ActiveOf(c, batch), batch.Keys - (left - {tp})) ==
               if IsActive(c, LeaseOf(batch[tp])) then now.pending[tp := batch[tp]] else now.pending
  {
    var active, done := ActiveOf(c, batch), batch.Keys - left;
    assert batch.Keys - (left - {tp}) == done + {tp};
    OneMoreWithin(c.pending, active, done, tp);
  }

  lemma OneMoreWithin(base: Outbox, box: Outbox, done: set<TopicPartition>, tp: TopicPartition)
    ensures base + Within(box, done + {tp}) ==
            if tp in box then (base + Within(box, done))[tp := box[tp]] else base + Within(box, done)
  {
  }
}
