/**
 What the steps of the protocol achieve, stated on trackers, candidates, events and stored
 commits themselves: planned offsets, synchronous commits, coordinator settlements, revokes
 and assignments, and the handover of a partition from one member to another.
 */
module ProtocolEffects {
  import opened Common
  import opened TrackerState
  import opened CompletionEvents
  import opened CoordinatorState
  import opened Handoff
  import opened AtLeastOnce
  import Coordination = CoordinatorRuns

  // ----- completions

  /**
   A completion settles its offset, and completes it in the tracker, exactly when the event is a
   success, or dead letters are off, or retries are left, or the publish returned true.
   */
  lemma CompletionSettlesExactly(cfg: Config, v: View, e: Event, published: bool)
    requires e.tp in v.me.trackers && e.epoch == v.me.trackers[e.tp].epoch
    ensures var over := e.success || !cfg.dlq.enabled || e.attempt < cfg.dlq.maxRetries || published;
            var t, v' := v.me.trackers[e.tp], Effect(cfg, v, Step.Complete(e, published));
            && Enabled(cfg, v, Step.Complete(e, published))
            && v'.settled == (if over then v.settled + {(e.tp, e.offset)} else v.settled)
            && v'.me.trackers.Keys == v.me.trackers.Keys
            && (forall o :: o in v'.me.trackers[e.tp].completed <==>
                  o in t.completed || (over && o == e.offset && o > t.committed))
            && (forall tp :: tp in v.me.trackers && tp != e.tp ==> v'.me.trackers[tp] == v.me.trackers[tp])
  {
  }

  // ----- planning

  /** Everything from the committed offset through `k` is done, and nothing up to `k` is in flight. */
  ghost predicate DoneThrough(t: Tracker, minInFlight: map<TopicPartition, int>, tp: TopicPartition, k: int) {
    && (tp in minInFlight ==> k < minInFlight[tp])
    && forall o :: t.committed < o <= k ==> o in t.completed
  }

  /** The plan names the furthest such offset past the committed one, if there is any. */
  ghost predicate PlannedFurthest(t: Tracker, minInFlight: map<TopicPartition, int>, tp: TopicPartition, plan: Plan) {
    if tp in plan then
      && plan[tp] > t.committed && DoneThrough(t, minInFlight, tp, plan[tp])
      && forall k :: DoneThrough(t, minInFlight, tp, k) ==> k <= plan[tp]
    else
      forall k :: DoneThrough(t, minInFlight, tp, k) ==> k <= t.committed
  }

  lemma PlanIsFurthest(trackers: TrackerMap, minInFlight: map<TopicPartition, int>, only: set<TopicPartition>, tp: TopicPartition)
    requires tp in trackers && tp in only && Clean(trackers[tp])
    ensures PlannedFurthest(trackers[tp], minInFlight, tp, PlanOf(trackers, minInFlight, only))
    ensures PlanOf(trackers, minInFlight, only).Keys <= trackers.Keys * only
  {
    var t, low := trackers[tp], if tp in minInFlight then Some(minInFlight[tp]) else None;
    HighWaterMarkIsCommittable(t, low);
    HighWaterMarkIsGreatest(t, low);
    assert forall k :: DoneThrough(t, minInFlight, tp, k) ==> Committable(t, low, k);
  }

  /** A planning step makes exactly that plan, for the partitions it is about. */
  lemma PlanningTakesEffect(cfg: Config, v: View, minInFlight: map<TopicPartition, int>, only: set<TopicPartition>, tp: TopicPartition)
    requires tp in v.me.trackers && tp in only && Clean(v.me.trackers[tp])
    ensures var me := Effect(cfg, v, MakePlan(minInFlight, only)).me;
            && PlannedFurthest(v.me.trackers[tp], minInFlight, tp, me.plan)
            && me.plan.Keys <= v.me.trackers.Keys * only && me.trackers == v.me.trackers
  {
    PlanIsFurthest(v.me.trackers, minInFlight, only, tp);
  }

  /** A fetch raises the fetched offset of its tracker and never lowers it. */
  lemma FetchTakesEffect(cfg: Config, v: View, tp: TopicPartition, o: int)
    requires tp in v.me.trackers
    ensures var t, trackers := v.me.trackers[tp], Effect(cfg, v, Step.Fetch(tp, o)).me.trackers;
            trackers == v.me.trackers[tp := t.(fetched := if o > t.fetched then o else t.fetched)]
  {
  }

  // ----- what a commit sends

  /** The stored commit goes right past `offset` and carries the completions past it. */
  ghost predicate StoredPast(policy: Policy, t: Tracker, offset: int, stored: Stored) {
    stored.position == offset + 1 && Carries(policy, t.completed, offset + 1, stored.metadata)
  }

  /** A planned commit goes right past the planned offset and carries the completions past it. */
  lemma SentCarries(policy: Policy, trackers: TrackerMap, plan: Plan, tp: TopicPartition)
    requires tp in plan && plan[tp] >= -1
    ensures tp in StoresOf(policy, trackers, plan) <==> tp in trackers
    ensures tp in trackers ==> StoredPast(policy, trackers[tp], plan[tp], StoresOf(policy, trackers, plan)[tp])
  {
    if tp in trackers {
      CommitCarries(policy, trackers[tp], plan[tp] + 1);
    }
  }

  /** The tracker after a commit through `safe`: it never moves back, and keeps what is past it. */
  ghost predicate AdvancedThrough(t: Tracker, safe: int, t': Tracker) {
    && t'.committed == (if safe > t.committed then safe else t.committed)
    && (forall o :: o in t'.completed <==> o in t.completed && !(t.committed < o <= safe))
    && t'.fetched == t.fetched && t'.epoch == t.epoch
  }

  lemma CommitAdvances(t: Tracker, safe: int)
    ensures AdvancedThrough(t, safe, CommitThrough(t, safe))
  {
  }

  lemma AdvanceAdvances(trackers: TrackerMap, plan: Plan, tp: TopicPartition)
    requires tp in trackers
    ensures Advance(trackers, plan).Keys == trackers.Keys
    ensures if tp in plan then AdvancedThrough(trackers[tp], plan[tp], Advance(trackers, plan)[tp])
            else Advance(trackers, plan)[tp] == trackers[tp]
  {
  }

  /** A call that took effect for `applied` stores exactly those commits, and nothing else. */
  lemma ApplyStores(broker: Stores, stores: Stores, applied: set<TopicPartition>, tp: TopicPartition)
    ensures var after := AtLeastOnce.Apply(broker, stores, applied);
            if tp in stores && tp in applied then tp in after && after[tp] == stores[tp]
            else (tp in after <==> tp in broker) && (tp in broker ==> after[tp] == broker[tp])
  {
  }

  /** A prepared synchronous commit whose call returned. */
  function SyncReturned(cfg: Config, v: View): View {
    Effect(cfg, v, SyncCall(v.me.syncStores.Keys, true))
  }

  lemma SyncPrepares(cfg: Config, v: View)
    ensures var v1 := Effect(cfg, v, PrepareSync);
            && v1.me.syncStores == StoresOf(cfg.policy, v.me.trackers, v.me.plan)
            && v1.me.syncPlan == Tracked(v.me.trackers, v.me.plan)
            && v1.me.trackers == v.me.trackers && v1.broker == v.broker
  {
  }

  lemma SyncReturns(cfg: Config, v: View)
    ensures Enabled(cfg, v, SyncCall(v.me.syncStores.Keys, true)) && Enabled(cfg, SyncReturned(cfg, v), SyncAdvance)
    ensures var v2 := SyncReturned(cfg, v);
            && v2.broker == AtLeastOnce.Apply(v.broker, v.me.syncStores, v.me.syncStores.Keys)
            && v2.me.trackers == v.me.trackers && v2.me.syncPlan == v.me.syncPlan
  {
  }

  lemma SyncAdvances(cfg: Config, v: View)
    ensures var v3 := Effect(cfg, v, SyncAdvance);
            v3.me.trackers == Advance(v.me.trackers, v.me.syncPlan) && v3.broker == v.broker
  {
  }

  /** A whole synchronous commit that returns, with nothing in between. */
  function SyncCommitted(cfg: Config, v: View): View {
    Effect(cfg, SyncReturned(cfg, Effect(cfg, v, PrepareSync)), SyncAdvance)
  }

  lemma SyncCommitState(cfg: Config, v: View)
    ensures var end, stores := SyncCommitted(cfg, v), StoresOf(cfg.policy, v.me.trackers, v.me.plan);
            && end.broker == AtLeastOnce.Apply(v.broker, stores, stores.Keys)
            && end.me.trackers == Advance(v.me.trackers, Tracked(v.me.trackers, v.me.plan))
  {
    SyncPrepares(cfg, v);
    SyncReturns(cfg, Effect(cfg, v, PrepareSync));
    SyncAdvances(cfg, SyncReturned(cfg, Effect(cfg, v, PrepareSync)));
  }

  /**
   For every planned and tracked partition such a commit leaves the position right past the plan
   and the completions past it at the broker, and the tracker advanced through the plan; all other
   partitions stay as they were.
   */
  lemma SyncCommitTakesEffect(cfg: Config, v: View, tp: TopicPartition)
    requires tp in v.me.plan ==> v.me.plan[tp] >= -1
    ensures var end := SyncCommitted(cfg, v);
            end.me.trackers.Keys == v.me.trackers.Keys &&
            if tp in v.me.trackers && tp in v.me.plan then
              var t, safe := v.me.trackers[tp], v.me.plan[tp];
              && tp in end.broker && StoredPast(cfg.policy, t, safe, end.broker[tp])
              && AdvancedThrough(t, safe, end.me.trackers[tp])
            else
              && (tp in end.broker <==> tp in v.broker) && (tp in v.broker ==> end.broker[tp] == v.broker[tp])
              && (tp in v.me.trackers ==> end.me.trackers[tp] == v.me.trackers[tp])
  {
    SyncCommitState(cfg, v);
    SyncStateMeans(cfg.policy, v.me.trackers, v.me.plan, v.broker, tp);
  }

  lemma SyncStateMeans(policy: Policy, trackers: TrackerMap, plan: Plan, broker: Stores, tp: TopicPartition)
    requires tp in plan ==> plan[tp] >= -1
    ensures var stores := StoresOf(policy, trackers, plan);
            var broker', trackers' := AtLeastOnce.Apply(broker, stores, stores.Keys), Advance(trackers, Tracked(trackers, plan));
            trackers'.Keys == trackers.Keys &&
            if tp in trackers && tp in plan then
              && tp in broker' && StoredPast(policy, trackers[tp], plan[tp], broker'[tp])
              && AdvancedThrough(trackers[tp], plan[tp], trackers'[tp])
            else
              && (tp in broker' <==> tp in broker) && (tp in broker ==> broker'[tp] == broker[tp])
              && (tp in trackers ==> trackers'[tp] == trackers[tp])
  {
    var stores := StoresOf(policy, trackers, plan);
    if tp in plan {
      SentCarries(policy, trackers, plan, tp);
    }
    ApplyStores(broker, stores, stores.Keys, tp);
    if tp in trackers {
      AdvanceAdvances(trackers, Tracked(trackers, plan), tp);
    }
  }

  /** A synchronous commit that raises without effect moves nothing. */
  lemma FailedSyncMovesNothing(cfg: Config, v: View)
    ensures var v1 := Effect(cfg, v, PrepareSync);
            var v2 := Effect(cfg, v1, SyncCall({}, false));
            && v2.me.trackers == v.me.trackers && v2.broker == v.broker
            && !Enabled(cfg, v2, SyncAdvance)
  {
    assert AtLeastOnce.Apply(v.broker, Effect(cfg, v, PrepareSync).me.syncStores, {}) == v.broker;
  }

  // ----- coordinator commits

  /**
   A filtered batch sends, for exactly the candidates whose partition is tracked in their epoch, the
   position right past the candidate and the completions past that.
   */
  lemma FilterSends(cfg: Config, v: View, tp: TopicPartition)
    requires tp in v.me.coordinator.batch && v.me.coordinator.batch[tp].offset >= -1
    ensures var x, sent := v.me.coordinator.batch[tp], Effect(cfg, v, FilterBatch).me.batchStores;
            && (tp in sent <==> tp in v.me.trackers && v.me.trackers[tp].epoch == x.epoch)
            && (tp in sent ==> StoredPast(cfg.policy, v.me.trackers[tp], x.offset, sent[tp]))
  {
    var batch := v.me.coordinator.batch;
    CurrentCandidates(v.me.trackers, batch, tp);
    CurrentIsSent(cfg.policy, v.me.trackers, OffsetsOf(batch - Stale(v.me.trackers, batch)), tp, batch[tp]);
    FilteredStores(cfg, v);
  }

  lemma FilteredStores(cfg: Config, v: View)
    ensures Effect(cfg, v, FilterBatch).me.batchStores ==
            StoresOf(cfg.policy, v.me.trackers, OffsetsOf(v.me.coordinator.batch - Stale(v.me.trackers, v.me.coordinator.batch)))
  {
  }

  lemma CurrentIsSent(policy: Policy, trackers: TrackerMap, current: Plan, tp: TopicPartition, x: Candidate)
    requires x.offset >= -1 && (tp in current <==> tp in trackers && trackers[tp].epoch == x.epoch)
    requires tp in current ==> current[tp] == x.offset
    ensures var sent := StoresOf(policy, trackers, current);
            && (tp in sent <==> tp in trackers && trackers[tp].epoch == x.epoch)
            && (tp in sent ==> StoredPast(policy, trackers[tp], x.offset, sent[tp]))
  {
    if tp in current {
      SentCarries(policy, trackers, current, tp);
    }
  }

  lemma CurrentCandidates(trackers: TrackerMap, batch: Outbox, tp: TopicPartition)
    requires tp in batch
    ensures var current := OffsetsOf(batch - Stale(trackers, batch));
            && (tp in current <==> tp in trackers && trackers[tp].epoch == batch[tp].epoch)
            && (tp in current ==> current[tp] == batch[tp].offset)
  {
  }

  /** A returned broker call stores what the filtered batch sends. */
  lemma BatchCallStores(cfg: Config, v: View, tp: TopicPartition)
    ensures var after := Effect(cfg, v, BatchCall(v.me.batchStores.Keys, None)).broker;
            if tp in v.me.batchStores then tp in after && after[tp] == v.me.batchStores[tp]
            else (tp in after <==> tp in v.broker) && (tp in v.broker ==> after[tp] == v.broker[tp])
  {
    ApplyStores(v.broker, v.me.batchStores, v.me.batchStores.Keys, tp);
  }

  /** After a returned commit exactly the candidates still in flight are handed out as settlements. */
  lemma ReportHandsOutInFlight(cfg: Config, v: View)
    requires Sound(v.me) && v.me.coordinator.phase.Returned?
    ensures Effect(cfg, v, ReportBatch).me.settlements == v.me.coordinator.c.inFlight
  {
    ActiveOfBatch(v.me.coordinator.c, v.me.coordinator.batch);
  }

  /** The candidate's epoch and lease are those of a live candidate of its partition, unmarked. */
  predicate LeaseLives(c: Coordinator, tp: TopicPartition, x: Candidate) {
    && Lease(tp, x.epoch, x.lease) !in c.cancelled
    && ((tp in c.pending && c.pending[tp].epoch == x.epoch && c.pending[tp].lease == x.lease)
        || (tp in c.inFlight && c.inFlight[tp].epoch == x.epoch && c.inFlight[tp].lease == x.lease))
  }

  /** A settlement advances its tracker through its offset exactly when the epoch matches and its lease lives. */
  lemma SettlementAdvances(trackers: TrackerMap, c: Coordinator, settlements: Outbox, tp: TopicPartition)
    requires Keyed(settlements) && tp in trackers
    ensures Settle(trackers, c, settlements).Keys == trackers.Keys
    ensures if tp in settlements && settlements[tp].epoch == trackers[tp].epoch && LeaseLives(c, tp, settlements[tp])
            then AdvancedThrough(trackers[tp], settlements[tp].offset, Settle(trackers, c, settlements)[tp])
            else Settle(trackers, c, settlements)[tp] == trackers[tp]
  {
    if tp in settlements {
      assert LeaseOf(settlements[tp]) == Lease(tp, settlements[tp].epoch, settlements[tp].lease);
    }
  }

  // ----- revoke

  /** What the coordinator hands to a revoke: one of the partition's candidates, at least as far as each. */
  lemma RemainingIsFurthest(c: Coordinator, tp: TopicPartition)
    ensures RemainingOf(c, tp).None? <==> tp !in c.pending && tp !in c.inFlight
    ensures RemainingOf(c, tp).Some? ==>
              var (epoch, offset) := RemainingOf(c, tp).value;
              && (tp in c.pending ==> offset >= c.pending[tp].offset)
              && (tp in c.inFlight ==> offset >= c.inFlight[tp].offset)
              && ((tp in c.pending && c.pending[tp].epoch == epoch && c.pending[tp].offset == offset)
                  || (tp in c.inFlight && c.inFlight[tp].epoch == epoch && c.inFlight[tp].offset == offset))
  {
  }

  /**
   A revoked partition gets one commit, past its contiguous prefix and past every candidate the
   coordinator still holds for it in its epoch, carrying the completions past it; none exactly
   when nothing at all is known to be done.
   */
  lemma RevokeReachesFurthest(policy: Policy, trackers: TrackerMap, c: Coordinator, tps: set<TopicPartition>, tp: TopicPartition)
    requires tp in trackers && tp in tps && Clean(trackers[tp])
    requires tp in c.pending ==> c.pending[tp].epoch == trackers[tp].epoch
    requires tp in c.inFlight ==> c.inFlight[tp].epoch == trackers[tp].epoch
    ensures var t, stores := trackers[tp], RevokeStoresOf(policy, trackers, c, tps);
            && (tp !in stores <==>
                  && ContiguousEnd(t.committed, t.completed) < 0
                  && (tp in c.pending ==> c.pending[tp].offset < 0) && (tp in c.inFlight ==> c.inFlight[tp].offset < 0))
            && (tp in stores ==>
                  && stores[tp].position > ContiguousEnd(t.committed, t.completed)
                  && (tp in c.pending ==> stores[tp].position > c.pending[tp].offset)
                  && (tp in c.inFlight ==> stores[tp].position > c.inFlight[tp].offset)
                  && Carries(policy, t.completed, stores[tp].position, stores[tp].metadata))
  {
    var candidate := RemainingOf(c, tp);
    RemainingIsFurthest(c, tp);
    RevokeCommitsFurthest(policy, trackers[tp], candidate);
    if tp in RevokeStoresOf(policy, trackers, c, tps) {
      RevokeCarries(policy, trackers[tp], candidate);
    }
  }

  /** Preparing a revoke advances the revoked trackers to the end of their contiguous prefix, and no other. */
  lemma RevokeAdvancesTrackers(cfg: Config, v: View, tps: set<TopicPartition>, tp: TopicPartition)
    requires tp in v.me.trackers && Clean(v.me.trackers[tp])
    ensures var t, trackers := v.me.trackers[tp], Effect(cfg, v, BeginRevoke(tps)).me.trackers;
            && trackers.Keys == v.me.trackers.Keys
            && if tp in tps then AdvancedThrough(t, ContiguousEnd(t.committed, t.completed), trackers[tp]) else trackers[tp] == t
  {
    CommitAdvances(v.me.trackers[tp], ContiguousEnd(v.me.trackers[tp].committed, v.me.trackers[tp].completed));
  }

  /** Cleaning up a revoke forgets the revoked trackers and prepared commits, and no others. */
  lemma CleanupTakesEffect(cfg: Config, v: View, tps: set<TopicPartition>, tp: TopicPartition)
    ensures var me := Effect(cfg, v, Step.CleanupRevoke(tps)).me;
            && (tp in me.trackers <==> tp in v.me.trackers && tp !in tps)
            && (tp in me.trackers ==> me.trackers[tp] == v.me.trackers[tp])
            && (tp in me.revokeStores <==> tp in v.me.revokeStores && tp !in tps)
            && me.coordinator == v.me.coordinator
  {
  }

  // ----- assignment

  /** Building an assignment with a lookup takes over what the broker stores for that very partition. */
  lemma BuildTakesOver(cfg: Config, v: View, tp: TopicPartition, lookup: bool, start: int, metadata: string)
    ensures var me := Effect(cfg, v, Build(tp, lookup, start, metadata)).me;
            && tp in me.incoming
            && TakesOver(cfg.policy, if lookup && tp in v.broker then Some(v.broker[tp]) else None, start, metadata, me.incoming[tp])
            && (forall p :: p != tp ==> (p in me.incoming <==> p in v.me.incoming))
            && me.trackers == v.me.trackers
  {
    RebuildTakesOver(cfg.policy, Lookup(v.broker, tp, lookup), start, metadata);
  }

  /** Installing makes the built trackers current and their partitions open to candidates; the rest stays. */
  lemma InstallTakesEffect(cfg: Config, v: View, tps: set<TopicPartition>, tp: TopicPartition)
    ensures var me := Effect(cfg, v, Install(tps)).me;
            && (tp in tps ==> tp !in me.coordinator.c.stopped)
            && (tp !in tps ==> (tp in me.coordinator.c.stopped <==> tp in v.me.coordinator.c.stopped))
            && if tp in tps && tp in v.me.incoming then tp in me.trackers && me.trackers[tp] == v.me.incoming[tp]
               else (tp in me.trackers <==> tp in v.me.trackers) && (tp in me.trackers ==> me.trackers[tp] == v.me.trackers[tp])
  {
  }

  // ----- a partition changes hands

  /** The revoke of `tp` by one member, its commit reaching the broker. */
  function Released(cfg: Config, v: View, tp: TopicPartition): View {
    Effect(cfg, Effect(cfg, v, BeginRevoke({tp})), RevokeCall(tp))
  }

  /**
   From one member to another: when a tracked partition is revoked and its commit is stored, any
   member that then builds the assignment with a lookup starts right behind the furthest position
   known to be done, and holds exactly the lowest offsets the first had completed past it, none
   only when neither text of them fits the limit.
   */
  lemma PartitionChangesHands(cfg: Config, v: View, tp: TopicPartition, other: Member, start: int, metadata: string)
    requires cfg.policy.snapshot && tp in v.me.trackers && Clean(v.me.trackers[tp])
    requires tp in RevokeStoresOf(cfg.policy, v.me.trackers, v.me.coordinator.c, {tp})
    ensures var t, stored := v.me.trackers[tp], Released(cfg, v, tp).broker;
            var next := Effect(cfg, View(other, stored, v.settled), Build(tp, true, start, metadata)).me.incoming;
            && tp in stored && stored[tp].position > ContiguousEnd(t.committed, t.completed)
            && tp in next && next[tp].committed == stored[tp].position - 1 && next[tp].completed <= t.completed
            && HandedOver(cfg.policy, Past(t.completed, stored[tp].position), stored[tp].position, next[tp].completed)
  {
    var t, c := v.me.trackers[tp], v.me.coordinator.c;
    var stores := RevokeStoresOf(cfg.policy, v.me.trackers, c, {tp});
    var stored := Released(cfg, v, tp).broker;
    ReleasedStores(cfg, v, tp);
    RevokeCommitsFurthest(cfg.policy, t, RemainingOf(c, tp));
    RevokeCarries(cfg.policy, t, RemainingOf(c, tp));
    BuildTakesOver(cfg, View(other, stored, v.settled), tp, true, start, metadata);
    var next := Effect(cfg, View(other, stored, v.settled), Build(tp, true, start, metadata)).me.incoming[tp];
    HandoffPreservesMeaning(cfg.policy, t.completed, stores[tp], start, metadata, next);
  }

  lemma RevokeBegins(cfg: Config, v: View, tps: set<TopicPartition>)
    ensures var v1 := Effect(cfg, v, BeginRevoke(tps));
            && v1.me.revokeStores == RevokeStoresOf(cfg.policy, v.me.trackers, v.me.coordinator.c, tps)
            && v1.broker == v.broker
  {
  }

  lemma RevokeCallStores(cfg: Config, v: View, tp: TopicPartition)
    requires tp in v.me.revokeStores
    ensures var after := Effect(cfg, v, RevokeCall(tp)).broker;
            tp in after && after[tp] == v.me.revokeStores[tp]
  {
    ApplyStores(v.broker, v.me.revokeStores, {tp}, tp);
  }

  lemma ReleasedStores(cfg: Config, v: View, tp: TopicPartition)
    requires tp in RevokeStoresOf(cfg.policy, v.me.trackers, v.me.coordinator.c, {tp})
    ensures var stored := Released(cfg, v, tp).broker;
            tp in stored && stored[tp] == RevokeStoresOf(cfg.policy, v.me.trackers, v.me.coordinator.c, {tp})[tp]
  {
    RevokeBegins(cfg, v, {tp});
    RevokeCallStores(cfg, Effect(cfg, v, BeginRevoke({tp})), tp);
  }
}
