/**
 The broker-side loops over trackers: planning commits, building what a commit sends,
 filtering stale candidates, advancing trackers after a commit, and preparing and
 cleaning up a revoke. Each is proved to compute the function the protocol model uses.
 */
module BrokerMembers {
  import opened Common
  import opened TrackerState
  import opened CoordinatorState
  import opened CompletionEvents
  import opened Completion
  import opened Handoff
  import CommitCoordinators
  import AtLeastOnce
  import ProtocolEffects

  type Plan = AtLeastOnce.Plan
  type Stores = AtLeastOnce.Stores

  class BrokerMember {
    const policy: Policy
    var trackers: TrackerMap
    var dirty: set<TopicPartition>
    var unsettled: map<TopicPartition, int>
    var timestamps: map<TopicPartition, map<int, real>>
    var pendingDlq: Ledger

    constructor (policy: Policy)
      ensures this.policy == policy && trackers == map[] && dirty == {} && pendingDlq == []
      ensures unsettled == map[] && timestamps == map[]
    {
      this.policy := policy;
      trackers, dirty, unsettled, timestamps, pendingDlq := map[], {}, map[], map[], [];
    }

    /** Partitions whose high-water mark is past their committed offset, with the mark. */
    method BuildCommitCandidates(minInFlight: map<TopicPartition, int>) returns (plan: Plan)
      ensures plan == AtLeastOnce.PlanOf(trackers, minInFlight, trackers.Keys)
      ensures forall tp :: tp in trackers && Clean(trackers[tp]) ==>
                ProtocolEffects.PlannedFurthest(trackers[tp], minInFlight, tp, plan)
      ensures plan.Keys <= trackers.Keys
    {
      plan := map[];
      var left := trackers.Keys;
      while left != {}
        invariant left <= trackers.Keys
        invariant plan == AtLeastOnce.PlanOf(trackers, minInFlight, trackers.Keys - left)
        decreases left
      {
        EmptyOrInhabited(left);
        var tp :| tp in left;
        var low := if tp in minInFlight then Some(minInFlight[tp]) else None;
        var mark := HighWaterMark(trackers[tp], low);
        PlanOne(trackers, minInFlight, trackers.Keys - left, tp);
        if mark > trackers[tp].committed {
          plan := plan[tp := mark];
        }
        left := left - {tp};
        assert trackers.Keys - left == (trackers.Keys - (left + {tp})) + {tp};
      }
      assert trackers.Keys - left == trackers.Keys;
      forall tp | tp in trackers && Clean(trackers[tp])
        ensures ProtocolEffects.PlannedFurthest(trackers[tp], minInFlight, tp, plan)
      {
        ProtocolEffects.PlanIsFurthest(trackers, minInFlight, trackers.Keys, tp);
      }
    }

    /** Position and metadata of every planned commit whose partition is still tracked. */
    method BuildOffsetsToCommit(plan: Plan) returns (stores: Stores)
      ensures stores == AtLeastOnce.StoresOf(policy, trackers, plan)
    {
      stores := map[];
      var left := plan.Keys;
      while left != {}
        invariant left <= plan.Keys
        invariant stores == AtLeastOnce.StoresOf(policy, trackers, plan - left)
        decreases left
      {
        EmptyOrInhabited(left);
        var tp :| tp in left;
        StoresOne(policy, trackers, plan, left, tp);
        if tp in trackers {
          var base := plan[tp] + 1;
          var metadata := CommitMetadata(policy, trackers[tp], base);
          stores := stores[tp := Stored(base, metadata)];
        }
        left := left - {tp};
      }
      assert plan - left == plan;
    }

    /** Candidates whose tracker is gone or of another epoch. */
    method FilterStale(batch: Outbox) returns (stale: set<TopicPartition>)
      ensures stale == AtLeastOnce.Stale(trackers, batch)
    {
      stale := {};
      var left := batch.Keys;
      while left != {}
        invariant left <= batch.Keys
        invariant forall tp :: tp in stale <==> tp in AtLeastOnce.Stale(trackers, batch) && tp !in left
        decreases left
      {
        EmptyOrInhabited(left);
        var tp :| tp in left;
        if tp !in trackers || trackers[tp].epoch != batch[tp].epoch {
          stale := stale + {tp};
        }
        left := left - {tp};
      }
    }

    /** Advances trackers of successful settlements whose lease is still active. */
    method SettleCommittedOffsets(c: Coordinator, settlements: Outbox) returns (advanced: set<TopicPartition>)
      modifies this`trackers
      ensures trackers == AtLeastOnce.Settle(old(trackers), c, settlements)
      ensures forall tp :: tp in advanced <==>
                (tp in old(trackers) && trackers[tp].committed > old(trackers)[tp].committed)
    {
      ghost var before := trackers;
      advanced := {};
      var left := settlements.Keys;
      SettleNothing(before, c);
      assert settlements - left == map[];
      while left != {}
        invariant left <= settlements.Keys
        invariant trackers == AtLeastOnce.Settle(before, c, settlements - left)
        invariant forall tp :: tp in advanced <==> (tp in before && trackers[tp].committed > before[tp].committed)
        decreases left
      {
        EmptyOrInhabited(left);
        var tp :| tp in left;
        SettleOne(before, c, settlements, left, tp);
        if tp in trackers && trackers[tp].epoch == settlements[tp].epoch
           && IsActive(c, LeaseOf(settlements[tp])) && settlements[tp].offset > trackers[tp].committed {
          trackers := trackers[tp := CommitThrough(trackers[tp], settlements[tp].offset)];
          advanced := advanced + {tp};
        }
        left := left - {tp};
      }
      assert settlements - left == settlements;
    }

    /**
     Commits the plan with one retry; `outcomes(i)` says how attempt `i` went, and `meanwhile`
     what the rest of the program did to the trackers while the broker was waited for.
     Trackers advance only after an attempt returned, and only for what was sent.
     */
    method CommitOffsets(open: bool, plan: Plan, outcomes: nat -> Attempt, meanwhile: (nat, TrackerMap) -> TrackerMap)
      returns (committed: bool, sent: Stores)
      modifies this`trackers
      ensures open ==> sent == AtLeastOnce.StoresOf(policy, old(trackers), plan)
      ensures committed <==> open && (sent == map[] || Succeeds(outcomes))
      ensures trackers == if open then AfterCommit(old(trackers), plan, outcomes, meanwhile) else old(trackers)
    {
      if !open {
        return false, map[];
      }
      sent := BuildOffsetsToCommit(plan);
      var tracked := AtLeastOnce.Tracked(trackers, plan);
      SentIsTracked(policy, trackers, plan);
      if tracked == map[] {
        return true, sent;
      }
      var attempt := 0;
      while attempt < 2
        invariant 0 <= attempt <= 2
        invariant forall i: nat :: i < attempt ==> outcomes(i).Failed?
        invariant AfterCommit(old(trackers), plan, outcomes, meanwhile) ==
                  AfterAttempts(trackers, tracked, outcomes, meanwhile, attempt)
      {
        if outcomes(attempt).Closed? {
          return false, sent;
        }
        trackers := meanwhile(attempt, trackers);      // the broker call is an await point
        if outcomes(attempt).Returned? {
          AdvanceTrackers(tracked);
          return true, sent;
        }
        attempt := attempt + 1;
      }
      assert outcomes(0).Failed? && outcomes(1).Failed?;
      return false, sent;
    }

    method AdvanceTrackers(plan: Plan)
      modifies this`trackers
      ensures trackers == AtLeastOnce.Advance(old(trackers), plan)
    {
      ghost var before := trackers;
      var left := plan.Keys;
      assert plan - left == map[];
      assert AtLeastOnce.Advance(before, map[]) == before;
      while left != {}
        invariant left <= plan.Keys
        invariant trackers == AtLeastOnce.Advance(before, plan - left)
        decreases left
      {
        EmptyOrInhabited(left);
        var tp :| tp in left;
        AdvanceOne(before, plan, left, tp);
        if tp in trackers {
          trackers := trackers[tp := CommitThrough(trackers[tp], plan[tp])];
        }
        left := left - {tp};
      }
      assert plan - left == plan;
    }

    method PrepareOne(c: Coordinator, tp: TopicPartition, before: Stores) returns (stores: Stores)
      modifies this`trackers
      ensures tp !in old(trackers) ==> trackers == old(trackers) && stores == before
      ensures tp in old(trackers) ==>
                var p := PrepareRevoke(policy, old(trackers)[tp], AtLeastOnce.RemainingOf(c, tp));
                && trackers == old(trackers)[tp := p.tracker]
                && stores == if p.commit.Some? then before[tp := p.commit.value] else before
    {
      stores := before;
      if tp in trackers {
        var prepared := PrepareRevoke(policy, trackers[tp], AtLeastOnce.RemainingOf(c, tp));
        trackers := trackers[tp := prepared.tracker];
        if prepared.commit.Some? {
          stores := stores[tp := prepared.commit.value];
        }
      }
    }

    /** Advances the revoked trackers and prepares one commit for each, coordinator work included. */
    method PrepareRevokes(c: Coordinator, tps: set<TopicPartition>) returns (stores: Stores)
      modifies this`trackers
      ensures trackers == AtLeastOnce.RevokedTrackers(policy, old(trackers), c, tps)
      ensures stores == AtLeastOnce.RevokeStoresOf(policy, old(trackers), c, tps)
    {
      ghost var before := trackers;
      stores := map[];
      var left := tps;
      ghost var done: set<TopicPartition> := {};
      assert AtLeastOnce.RevokedTrackers(policy, before, c, {}) == before;
      while left != {}
        invariant done + left == tps && done !! left
        invariant trackers == AtLeastOnce.RevokedTrackers(policy, before, c, done)
        invariant stores == AtLeastOnce.RevokeStoresOf(policy, before, c, done)
        decreases left
      {
        EmptyOrInhabited(left);
        var tp :| tp in left;
        RevokeOne(policy, before, c, done, tp);
        stores := PrepareOne(c, tp, stores);
        left, done := left - {tp}, done + {tp};
      }
      assert done == tps;
    }

    /** One rebuilt tracker per assigned partition; a partition listed twice keeps its last entry. */
    method BuildAssignments(partitions: seq<Assigned>, committed: Stores) returns (built: TrackerMap)
      ensures forall tp :: tp in built <==> exists i :: 0 <= i < |partitions| && partitions[i].tp == tp
      ensures forall i :: 0 <= i < |partitions| && partitions[i].tp !in Later(partitions, i) ==>
                var p := partitions[i];
                p.tp in built &&
                TakesOver(policy, if p.tp in committed then Some(committed[p.tp]) else None, p.start, p.metadata, built[p.tp])
    {
      built := map[];
      var n := 0;
      while n < |partitions|
        invariant 0 <= n <= |partitions|
        invariant built == BuiltFrom(policy, committed, partitions, n)
      {
        built := built[partitions[n].tp := RebuiltFrom(policy, committed, partitions[n])];
        n := n + 1;
      }
      forall tp { BuiltKeys(policy, committed, partitions, n, tp); }
      forall i | 0 <= i < n && partitions[i].tp !in Later(partitions, i)
        ensures var p := partitions[i];
                p.tp in built &&
                TakesOver(policy, if p.tp in committed then Some(committed[p.tp]) else None, p.start, p.metadata, built[p.tp])
      {
        LastListingWins(policy, committed, partitions, n, i);
        RebuildTakesOver(policy, AtLeastOnce.Lookup(committed, partitions[i].tp, true), partitions[i].start, partitions[i].metadata);
      }
    }

    /**
     Installs the built trackers and lets the coordinator accept their partitions again: the
     group's install step, of a member with exactly these trackers on the way.
     */
    method InstallAssignments(coordinator: CommitCoordinators.CommitCoordinator, order: seq<TopicPartition>, built: TrackerMap)
      requires CommitCoordinators.Members(order) == built.Keys
      modifies this`trackers, coordinator
      ensures forall cfg, v: AtLeastOnce.View ::
                Shows(v.me, old(trackers), old(coordinator.State())) && v.me.incoming == built ==>
                  Shows(AtLeastOnce.Effect(cfg, v, AtLeastOnce.Install(built.Keys)).me, trackers, coordinator.State())
      ensures forall tp :: tp in built ==>
                tp in trackers && trackers[tp] == built[tp] && tp !in coordinator.stoppedPartitions
    {
      coordinator.StartAcceptingPartitions(order);
      trackers := trackers + built;
      assert built == map tp | tp in built && tp in built.Keys :: built[tp];
    }

    /** After the revoke commit nothing of the revoked partitions is left. */
    method CleanupRevoke(tps: set<TopicPartition>)
      modifies this
      ensures trackers == old(trackers) - tps && dirty == old(dirty) - tps
      ensures unsettled == old(unsettled) - tps && timestamps == old(timestamps) - tps
      ensures forall key :: Has(pendingDlq, key) <==> Has(old(pendingDlq), key) && key.0 !in tps
    {
      trackers, dirty := trackers - tps, dirty - tps;
      unsettled, timestamps := unsettled - tps, timestamps - tps;
      var snapshot := pendingDlq;
      var i := 0;
      while i < |snapshot|
        invariant 0 <= i <= |snapshot|
        invariant trackers == old(trackers) - tps && dirty == old(dirty) - tps
        invariant unsettled == old(unsettled) - tps && timestamps == old(timestamps) - tps
        invariant forall key :: Has(pendingDlq, key) <==> Has(snapshot, key) && !(key.0 in tps && Has(snapshot[..i], key))
      {
        var key := KeyOf(snapshot[i]);
        forall k { DropSeen(pendingDlq, snapshot, i, k); }
        if key.0 in tps {
          pendingDlq := Drop(pendingDlq, key);
        }
        i := i + 1;
      }
      assert snapshot[..i] == snapshot;
    }
  }

  /** A partition of the assignment callback. */
  datatype Assigned = Assigned(tp: TopicPartition, start: int, metadata: string)

  function Later(partitions: seq<Assigned>, i: nat): set<TopicPartition> {
    set j | i < j < |partitions| :: partitions[j].tp
  }

  function RebuiltFrom(policy: Policy, committed: Stores, p: Assigned): Tracker {
    Rebuild(policy, AtLeastOnce.Lookup(committed, p.tp, true), p.start, p.metadata)
  }

  /** The member has these trackers and this coordinator state. */
  ghost predicate Shows(me: AtLeastOnce.Member, trackers: TrackerMap, c: Coordinator) {
    me.trackers == trackers && me.coordinator.c == c
  }

  /** The trackers of the first `n` listed partitions, later listings over earlier ones. */
  function BuiltFrom(policy: Policy, committed: Stores, partitions: seq<Assigned>, n: nat): TrackerMap
    requires n <= |partitions|
  {
    if n == 0 then map[]
    else BuiltFrom(policy, committed, partitions, n - 1)[partitions[n - 1].tp := RebuiltFrom(policy, committed, partitions[n - 1])]
  }

  lemma {:induction false} BuiltKeys(policy: Policy, committed: Stores, partitions: seq<Assigned>, n: nat, tp: TopicPartition)
    requires n <= |partitions|
    ensures tp in BuiltFrom(policy, committed, partitions, n) <==> exists i :: 0 <= i < n && partitions[i].tp == tp
  {
    if n > 0 {
      BuiltKeys(policy, committed, partitions, n - 1, tp);
    }
  }

  lemma {:induction false} LastListingWins(policy: Policy, committed: Stores, partitions: seq<Assigned>, n: nat, i: nat)
    requires i < n <= |partitions| && partitions[i].tp !in Later(partitions, i)
    ensures var built := BuiltFrom(policy, committed, partitions, n);
            partitions[i].tp in built && built[partitions[i].tp] == RebuiltFrom(policy, committed, partitions[i])
  {
    if i < n - 1 {
      LastListingWins(policy, committed, partitions, n - 1, i);
      assert partitions[n - 1].tp in Later(partitions, i);
    }
  }

  // ----- a commit with one retry

  /** An attempt returned, raised, or found the consumer closed. */
  datatype Attempt = Returned | Failed | Closed

  predicate Succeeds(outcomes: nat -> Attempt) {
    outcomes(0).Returned? || (outcomes(0).Failed? && outcomes(1).Returned?)
  }

  /** The trackers when attempts `attempt` and later are over. */
  function AfterAttempts(trackers: TrackerMap, tracked: Plan, outcomes: nat -> Attempt,
                         meanwhile: (nat, TrackerMap) -> TrackerMap, attempt: nat): TrackerMap
    decreases 2 - attempt
  {
    if attempt >= 2 || outcomes(attempt).Closed? then trackers
    else
      var moved := meanwhile(attempt, trackers);
      if outcomes(attempt).Returned? then AtLeastOnce.Advance(moved, tracked)
      else AfterAttempts(moved, tracked, outcomes, meanwhile, attempt + 1)
  }

  function AfterCommit(trackers: TrackerMap, plan: Plan, outcomes: nat -> Attempt,
                       meanwhile: (nat, TrackerMap) -> TrackerMap): TrackerMap {
    var tracked := AtLeastOnce.Tracked(trackers, plan);
    if tracked == map[] then trackers else AfterAttempts(trackers, tracked, outcomes, meanwhile, 0)
  }

  /** With nothing else going on, a commit advances the planned trackers exactly when it succeeded. */
  lemma QuietCommit(trackers: TrackerMap, plan: Plan, outcomes: nat -> Attempt, meanwhile: (nat, TrackerMap) -> TrackerMap)
    requires forall i, t :: meanwhile(i, t) == t
    ensures AfterCommit(trackers, plan, outcomes, meanwhile) ==
            if Succeeds(outcomes) then AtLeastOnce.Advance(trackers, plan) else trackers
  {
    var tracked := AtLeastOnce.Tracked(trackers, plan);
    assert AtLeastOnce.Advance(trackers, tracked) == AtLeastOnce.Advance(trackers, plan);
    if tracked == map[] {
      assert forall tp :: tp in plan && tp in trackers ==> tp in tracked;
      assert AtLeastOnce.Advance(trackers, plan) == trackers;
    }
    assert AfterAttempts(trackers, tracked, outcomes, meanwhile, 2) == trackers;
    assert meanwhile(0, trackers) == trackers && meanwhile(1, trackers) == trackers;
  }

  lemma SentIsTracked(policy: Policy, trackers: TrackerMap, plan: Plan)
    ensures AtLeastOnce.StoresOf(policy, trackers, plan) == map[] <==> AtLeastOnce.Tracked(trackers, plan) == map[]
  {
    assert AtLeastOnce.StoresOf(policy, trackers, plan).Keys == AtLeastOnce.Tracked(trackers, plan).Keys;
  }

  // ----- one more partition

  lemma PlanOne(trackers: TrackerMap, low: map<TopicPartition, int>, done: set<TopicPartition>, tp: TopicPartition)
    requires tp in trackers && tp !in done
    ensures var mark := HighWaterMark(trackers[tp], AtLeastOnce.LowestInFlight(low, tp));
            var plan := AtLeastOnce.PlanOf(trackers, low, done);
            AtLeastOnce.PlanOf(trackers, low, done + {tp}) ==
            if mark > trackers[tp].committed then plan[tp := mark] else plan
  {
  }

  lemma StoresOne(policy: Policy, trackers: TrackerMap, plan: Plan, left: set<TopicPartition>, tp: TopicPartition)
    requires tp in left && left <= plan.Keys
    ensures var now := AtLeastOnce.StoresOf(policy, trackers, plan - left);
            AtLeastOnce.StoresOf(policy, trackers, plan - (left - {tp})) ==
            if tp in trackers then now[tp := Stored(plan[tp] + 1, CommitMetadata(policy, trackers[tp], plan[tp] + 1))]
            else now
  {
    assert plan - (left - {tp}) == (plan - left)[tp := plan[tp]];
  }

  lemma SettleNothing(trackers: TrackerMap, c: Coordinator)
    ensures AtLeastOnce.Settle(trackers, c, map[]) == trackers
  {
  }

  lemma SettleOne(before: TrackerMap, c: Coordinator, settlements: Outbox, left: set<TopicPartition>, tp: TopicPartition)
    requires tp in left && left <= settlements.Keys
    ensures var now := AtLeastOnce.Settle(before, c, settlements - left);
            && (tp in now ==> now[tp] == before[tp])
            && AtLeastOnce.Settle(before, c, settlements - (left - {tp})) ==
               if tp in now && now[tp].epoch == settlements[tp].epoch && IsActive(c, LeaseOf(settlements[tp]))
               then now[tp := CommitThrough(now[tp], settlements[tp].offset)] else now
  {
  }

  lemma AdvanceOne(before: TrackerMap, plan: Plan, left: set<TopicPartition>, tp: TopicPartition)
    requires tp in left && left <= plan.Keys
    ensures var now := AtLeastOnce.Advance(before, plan - left);
            AtLeastOnce.Advance(before, plan - (left - {tp})) ==
            if tp in now then now[tp := CommitThrough(now[tp], plan[tp])] else now
  {
  }

  lemma RevokeOne(policy: Policy, before: TrackerMap, c: Coordinator, done: set<TopicPartition>, tp: TopicPartition)
    requires tp !in done
    ensures var now := AtLeastOnce.RevokedTrackers(policy, before, c, done);
            && (tp in now ==> now[tp] == before[tp])
            && AtLeastOnce.RevokedTrackers(policy, before, c, done + {tp}) ==
               (if tp in now then now[tp := PrepareRevoke(policy, now[tp], AtLeastOnce.RemainingOf(c, tp)).tracker] else now)
    ensures var now := AtLeastOnce.RevokeStoresOf(policy, before, c, done);
            AtLeastOnce.RevokeStoresOf(policy, before, c, done + {tp}) ==
            if tp in before && PrepareRevoke(policy, before[tp], AtLeastOnce.RemainingOf(c, tp)).commit.Some?
            then now[tp := PrepareRevoke(policy, before[tp], AtLeastOnce.RemainingOf(c, tp)).commit.value] else now
  {
  }

  lemma DropSeen(ledger: Ledger, snapshot: Ledger, i: nat, k: Key)
    requires i < |snapshot|
    ensures Has(Drop(ledger, KeyOf(snapshot[i])), k) <==> Has(ledger, k) && k != KeyOf(snapshot[i])
    ensures Has(snapshot[..i + 1], k) <==> Has(snapshot[..i], k) || k == KeyOf(snapshot[i])
  {
    HasDrop(ledger, KeyOf(snapshot[i]), k);
    var shorter, longer := snapshot[..i], snapshot[..i + 1];
    assert longer == shorter + [snapshot[i]];
    if Has(shorter, k) {
      var j :| 0 <= j < |shorter| && KeyOf(shorter[j]) == k;
      assert longer[j] == shorter[j];
    }
    if Has(longer, k) {
      var j :| 0 <= j < |longer| && KeyOf(longer[j]) == k;
      assert j < i ==> shorter[j] == longer[j];
    }
    assert longer[i] == snapshot[i];
  }
}
