/**
 The whole commit protocol: any number of group members, each with its trackers,
 its coordinator, a synchronous commit, revokes and assignments in progress, and
 one broker. Completions, broker calls that succeed or raise, rebalances and
 restarts interleave freely.

 The ghost set `settled` holds the (partition, offset) pairs whose message reached
 a final outcome: success, a dead-letter publish that returned true, or a failure
 the configuration exempts from the dead-letter queue.
 */
module AtLeastOnce {
  import opened Common
  import opened Offsets
  import opened TrackerState
  import opened MetadataEncoder
  import opened CompletionEvents
  import opened CoordinatorState
  import Coordination = CoordinatorRuns
  import opened Handoff

  datatype Config = Config(
    policy: Policy,
    queueMax: int,
    dlq: DlqPolicy,
    origin: TopicPartition -> int)   // first starting position of each partition

  type Plan = map<TopicPartition, int>
  type Stores = map<TopicPartition, Stored>

  /** One group member. */
  datatype Member = Member(
    trackers: TrackerMap,
    incoming: TrackerMap,                      // built for an assignment, not yet installed
    plan: Plan,                              // commit candidates read under the control lock
    syncPlan: Plan, syncStores: Stores,      // synchronous commit in progress
    syncReturned: bool,
    coordinator: Coordination.Machine,
    batchStores: Stores,                     // what the coordinator's batch sends
    settlements: Outbox,                     // handed to the success callback
    revokeStores: Stores)                    // prepared revoke commits

  const FRESH := Member(map[], map[], map[], map[], map[], false, Coordination.START, map[], map[], map[])

  type Settled = set<(TopicPartition, int)>

  /** What one member's step can see and change. */
  datatype View = View(me: Member, broker: Stores, settled: Settled)

  datatype Step =
    | Complete(event: Event, published: bool)
    | Fetch(tp: TopicPartition, offset: int)
    | MakePlan(minInFlight: map<TopicPartition, int>, only: set<TopicPartition>)
    | EnqueuePlan(candidates: seq<Candidate>)
    | PrepareSync
    | SyncCall(applied: set<TopicPartition>, returned: bool)
    | SyncAdvance
    | Coordinate(action: Coordination.Action)
    | FilterBatch
    | BatchCall(applied: set<TopicPartition>, raised: Option<Coordination.Reason>)
    | ReportBatch
    | ApplySettlements
    | BeginRevoke(tps: set<TopicPartition>)
    | RevokeCall(tp: TopicPartition)
    | CleanupRevoke(tps: set<TopicPartition>)
    | Build(tp: TopicPartition, lookup: bool, start: int, metadata: string)
    | Install(tps: set<TopicPartition>)
    | Restart

  // ----- what each step computes

  function Mark(trackers: TrackerMap, e: Event): TrackerMap {
    if e.tp in trackers then trackers[e.tp := MarkComplete(trackers[e.tp], e.offset)] else trackers
  }

  function LowestInFlight(minInFlight: map<TopicPartition, int>, tp: TopicPartition): Option<int> {
    if tp in minInFlight then Some(minInFlight[tp]) else None
  }

  /** Partitions whose high-water mark moved, with the mark. */
  function PlanOf(trackers: TrackerMap, minInFlight: map<TopicPartition, int>, only: set<TopicPartition>): Plan {
    map tp | tp in trackers && tp in only
             && HighWaterMark(trackers[tp], LowestInFlight(minInFlight, tp)) > trackers[tp].committed
      :: HighWaterMark(trackers[tp], LowestInFlight(minInFlight, tp))
  }

  function StoresOf(policy: Policy, trackers: TrackerMap, plan: Plan): Stores {
    map tp | tp in plan && tp in trackers :: Stored(plan[tp] + 1, CommitMetadata(policy, trackers[tp], plan[tp] + 1))
  }

  function Tracked(trackers: TrackerMap, plan: Plan): Plan {
    map tp | tp in plan && tp in trackers :: plan[tp]
  }

  function Advance(trackers: TrackerMap, plan: Plan): TrackerMap {
    map tp | tp in trackers :: if tp in plan then CommitThrough(trackers[tp], plan[tp]) else trackers[tp]
  }

  function Apply(broker: Stores, stores: Stores, applied: set<TopicPartition>): Stores {
    broker + map tp | tp in stores && tp in applied :: stores[tp]
  }

  /** Candidates of the batch whose tracker is gone or belongs to another epoch. */
  function Stale(trackers: TrackerMap, batch: Outbox): set<TopicPartition> {
    set tp | tp in batch && (tp !in trackers || trackers[tp].epoch != batch[tp].epoch)
  }

  function Settle(trackers: TrackerMap, c: Coordinator, settlements: Outbox): TrackerMap {
    map tp | tp in trackers ::
      if tp in settlements && trackers[tp].epoch == settlements[tp].epoch && IsActive(c, LeaseOf(settlements[tp]))
      then CommitThrough(trackers[tp], settlements[tp].offset) else trackers[tp]
  }

  function RemainingOf(c: Coordinator, tp: TopicPartition): Option<(int, int)> {
    if tp in Remaining(c) then Some((Remaining(c)[tp].epoch, Remaining(c)[tp].offset)) else None
  }

  function RevokedTrackers(policy: Policy, trackers: TrackerMap, c: Coordinator, tps: set<TopicPartition>): TrackerMap {
    map tp | tp in trackers ::
      if tp in tps then PrepareRevoke(policy, trackers[tp], RemainingOf(c, tp)).tracker else trackers[tp]
  }

  function RevokeStoresOf(policy: Policy, trackers: TrackerMap, c: Coordinator, tps: set<TopicPartition>): Stores {
    map tp | tp in trackers && tp in tps && PrepareRevoke(policy, trackers[tp], RemainingOf(c, tp)).commit.Some?
      :: PrepareRevoke(policy, trackers[tp], RemainingOf(c, tp)).commit.value
  }

  function Lookup(broker: Stores, tp: TopicPartition, found: bool): Option<Stored> {
    if found && tp in broker then Some(broker[tp]) else None
  }

  // ----- one member's step

  ghost predicate SafeUpTo(cfg: Config, settled: Settled, tp: TopicPartition, position: int) {
    forall o :: 0 <= o && cfg.origin(tp) <= o < position ==> (tp, o) in settled
  }

  ghost predicate DecodesSettled(settled: Settled, tp: TopicPartition, metadata: string) {
    forall o :: o in Decode(metadata) ==> (tp, o) in settled
  }

  /**
   What an assignment brings along is taken as given, as far as it is used: its starting
   position when no stored one is found, its metadata when no stored text is.
   */
  ghost predicate Given(cfg: Config, settled: Settled, tp: TopicPartition, found: Option<Stored>, start: int, metadata: string) {
    && (!(found.Some? && found.value.position >= 0) && start > 0 ==> SafeUpTo(cfg, settled, tp, start))
    && (cfg.policy.snapshot && !(found.Some? && found.value.metadata != "") ==> DecodesSettled(settled, tp, metadata))
  }

  /** Coordinator actions that reach neither trackers nor broker. */
  predicate Internal(a: Coordination.Action) {
    !a.Enqueue? && !a.Filter? && !a.BrokerCommit? && !a.Resume?
  }

  ghost predicate Enabled(cfg: Config, v: View, step: Step) {
    var me := v.me;
    match step
    case Complete(e, _) => e.tp in me.trackers && e.epoch == me.trackers[e.tp].epoch
    case Fetch(tp, _) => tp in me.trackers
    case EnqueuePlan(xs) =>
      forall i :: 0 <= i < |xs| ==>
        && xs[i].tp in me.plan && xs[i].offset == me.plan[xs[i].tp]
        && xs[i].tp in me.trackers && xs[i].epoch == me.trackers[xs[i].tp].epoch
    case SyncCall(applied, returned) => returned ==> applied == me.syncStores.Keys
    case SyncAdvance => me.syncReturned
    case Coordinate(a) => Internal(a) && !(a.Raise? && a.reason.KafkaException?)
    case FilterBatch => me.coordinator.phase.Submitted?
    case BatchCall(applied, raised) =>
      && me.coordinator.phase.Checking? && me.coordinator.checked == me.coordinator.tracked
      && (raised.None? ==> applied == me.batchStores.Keys)
    case ReportBatch => Coordination.Enabled(me.coordinator, Coordination.Resume)
    case ApplySettlements => me.coordinator.phase.Settling?
    case RevokeCall(tp) => tp in me.revokeStores
    case Build(tp, lookup, start, metadata) => Given(cfg, v.settled, tp, Lookup(v.broker, tp, lookup), start, metadata)
    case _ => true
  }

  function Drive(cfg: Config, me: Member, a: Coordination.Action): Member {
    me.(coordinator := Coordination.Do(me.coordinator, a, cfg.queueMax))
  }

  function Effect(cfg: Config, v: View, step: Step): View {
    var me := v.me;
    match step
    case Complete(e, published) =>
      if Settles(cfg.dlq, e, published)
      then v.(me := me.(trackers := Mark(me.trackers, e)), settled := v.settled + {(e.tp, e.offset)})
      else v
    case Fetch(tp, o) =>
      if tp in me.trackers then v.(me := me.(trackers := me.trackers[tp := UpdateFetched(me.trackers[tp], o)])) else v
    case MakePlan(low, only) => v.(me := me.(plan := PlanOf(me.trackers, low, only)))
    case EnqueuePlan(xs) => v.(me := Drive(cfg, me, Coordination.Enqueue(xs)))
    case PrepareSync =>
      v.(me := me.(syncPlan := Tracked(me.trackers, me.plan),
                   syncStores := StoresOf(cfg.policy, me.trackers, me.plan), syncReturned := false))
    case SyncCall(applied, returned) =>
      v.(me := me.(syncReturned := returned), broker := Apply(v.broker, me.syncStores, applied))
    case SyncAdvance => v.(me := me.(trackers := Advance(me.trackers, me.syncPlan), syncReturned := false))
    case Coordinate(a) => v.(me := Drive(cfg, me, a))
    case FilterBatch =>
      var stale := Stale(me.trackers, me.coordinator.batch);
      v.(me := Drive(cfg, me, Coordination.Filter(stale)).(
                 batchStores := StoresOf(cfg.policy, me.trackers, OffsetsOf(me.coordinator.batch - stale))))
    case BatchCall(applied, raised) =>
      v.(me := Drive(cfg, me, if raised.None? then Coordination.BrokerCommit else Coordination.Raise(raised.value)),
         broker := Apply(v.broker, me.batchStores, applied))
    case ReportBatch =>
      v.(me := Drive(cfg, me, Coordination.Resume).(
                 settlements := if me.coordinator.phase.Returned?
                                then ActiveOf(me.coordinator.c, me.coordinator.batch) else me.settlements))
    case ApplySettlements => v.(me := me.(trackers := Settle(me.trackers, me.coordinator.c, me.settlements)))
    case BeginRevoke(tps) =>
      v.(me := Drive(cfg, me, Coordination.Stop(tps)).(
                 trackers := RevokedTrackers(cfg.policy, me.trackers, me.coordinator.c, tps),
                 revokeStores := RevokeStoresOf(cfg.policy, me.trackers, me.coordinator.c, tps)))
    case RevokeCall(tp) => v.(broker := Apply(v.broker, me.revokeStores, {tp}))
    case CleanupRevoke(tps) => v.(me := me.(trackers := me.trackers - tps, revokeStores := me.revokeStores - tps))
    case Build(tp, found, start, metadata) =>
      v.(me := me.(incoming := me.incoming[tp := Rebuild(cfg.policy, Lookup(v.broker, tp, found), start, metadata)]))
    case Install(tps) =>
      v.(me := Drive(cfg, me, Coordination.Start(tps)).(
                 trackers := me.trackers + map tp | tp in me.incoming && tp in tps :: me.incoming[tp]))
    case Restart => v.(me := FRESH)
  }

  // ----- safety of every piece of state

  ghost predicate Good(cfg: Config, settled: Settled, tp: TopicPartition, offset: int) {
    offset >= 0 && SafeUpTo(cfg, settled, tp, offset + 1)
  }

  ghost predicate TrackerSafe(cfg: Config, settled: Settled, tp: TopicPartition, t: Tracker) {
    && Clean(t) && t.committed >= -1
    && SafeUpTo(cfg, settled, tp, t.committed + 1)
    && (forall o :: o in t.completed ==> (tp, o) in settled)
  }

  ghost predicate StoredSafe(cfg: Config, settled: Settled, tp: TopicPartition, s: Stored) {
    SafeUpTo(cfg, settled, tp, s.position) && DecodesSettled(settled, tp, s.metadata)
  }

  ghost predicate TrackersSafe(cfg: Config, settled: Settled, trackers: TrackerMap) {
    forall tp :: tp in trackers ==> TrackerSafe(cfg, settled, tp, trackers[tp])
  }

  ghost predicate PlanSafe(cfg: Config, settled: Settled, plan: Plan) {
    forall tp :: tp in plan ==> Good(cfg, settled, tp, plan[tp])
  }

  ghost predicate StoresSafe(cfg: Config, settled: Settled, stores: Stores) {
    forall tp :: tp in stores ==> StoredSafe(cfg, settled, tp, stores[tp])
  }

  ghost predicate BoxSafe(cfg: Config, settled: Settled, box: Outbox) {
    forall tp :: tp in box ==> Good(cfg, settled, tp, box[tp].offset)
  }

  ghost predicate MachineSafe(cfg: Config, settled: Settled, m: Coordination.Machine) {
    BoxSafe(cfg, settled, m.c.pending) && BoxSafe(cfg, settled, m.c.inFlight) && BoxSafe(cfg, settled, m.batch)
  }

  ghost predicate MemberSafe(cfg: Config, settled: Settled, me: Member) {
    && TrackersSafe(cfg, settled, me.trackers) && TrackersSafe(cfg, settled, me.incoming)
    && PlanSafe(cfg, settled, me.plan) && PlanSafe(cfg, settled, me.syncPlan)
    && StoresSafe(cfg, settled, me.syncStores) && StoresSafe(cfg, settled, me.batchStores)
    && StoresSafe(cfg, settled, me.revokeStores)
    && MachineSafe(cfg, settled, me.coordinator) && BoxSafe(cfg, settled, me.settlements)
  }

  ghost predicate ViewSafe(cfg: Config, v: View) {
    MemberSafe(cfg, v.settled, v.me) && StoresSafe(cfg, v.settled, v.broker)
  }

  // ----- trackers

  lemma CommitSafe(cfg: Config, settled: Settled, tp: TopicPartition, t: Tracker, o: int)
    requires TrackerSafe(cfg, settled, tp, t) && SafeUpTo(cfg, settled, tp, o + 1)
    ensures TrackerSafe(cfg, settled, tp, CommitThrough(t, o))
  {
  }

  /** Everything up to the high-water mark has settled. */
  lemma MarkIsSettled(cfg: Config, settled: Settled, tp: TopicPartition, t: Tracker, low: Option<int>)
    requires TrackerSafe(cfg, settled, tp, t)
    ensures SafeUpTo(cfg, settled, tp, HighWaterMark(t, low) + 1)
  {
  }

  lemma MetadataSafe(cfg: Config, settled: Settled, tp: TopicPartition, t: Tracker, o: int)
    requires TrackerSafe(cfg, settled, tp, t) && Good(cfg, settled, tp, o)
    ensures StoredSafe(cfg, settled, tp, Stored(o + 1, CommitMetadata(cfg.policy, t, o + 1)))
  {
    MetadataIsCompleted(cfg.policy, t, o + 1);
  }

  lemma RebuildSafe(cfg: Config, settled: Settled, tp: TopicPartition, found: Option<Stored>, start: int, metadata: string)
    requires found.Some? ==> StoredSafe(cfg, settled, tp, found.value)
    requires Given(cfg, settled, tp, found, start, metadata)
    ensures TrackerSafe(cfg, settled, tp, Rebuild(cfg.policy, found, start, metadata))
  {
  }

  lemma RevokeSafe(cfg: Config, settled: Settled, tp: TopicPartition, t: Tracker, candidate: Option<(int, int)>)
    requires TrackerSafe(cfg, settled, tp, t)
    requires candidate.Some? ==> Good(cfg, settled, tp, candidate.value.1)
    ensures var p := PrepareRevoke(cfg.policy, t, candidate);
            && TrackerSafe(cfg, settled, tp, p.tracker)
            && (p.commit.Some? ==> StoredSafe(cfg, settled, tp, p.commit.value))
  {
    MarkIsSettled(cfg, settled, tp, t, None);
    CommitSafe(cfg, settled, tp, t, HighWaterMark(t, None));
    var advanced := AdvanceHighWaterMark(t);
    var p := PrepareRevoke(cfg.policy, t, candidate);
    if p.commit.Some? {
      MetadataSafe(cfg, settled, tp, advanced, p.commit.value.position - 1);
    }
  }

  // ----- maps of trackers, plans and stores

  lemma MarkAllSafe(cfg: Config, settled: Settled, trackers: TrackerMap, e: Event)
    requires TrackersSafe(cfg, settled, trackers) && (e.tp, e.offset) in settled
    ensures TrackersSafe(cfg, settled, Mark(trackers, e))
  {
  }

  lemma PlanOfSafe(cfg: Config, settled: Settled, trackers: TrackerMap, low: map<TopicPartition, int>, only: set<TopicPartition>)
    requires TrackersSafe(cfg, settled, trackers)
    ensures PlanSafe(cfg, settled, PlanOf(trackers, low, only))
  {
  }

  lemma StoresOfSafe(cfg: Config, settled: Settled, trackers: TrackerMap, plan: Plan)
    requires TrackersSafe(cfg, settled, trackers) && PlanSafe(cfg, settled, plan)
    ensures StoresSafe(cfg, settled, StoresOf(cfg.policy, trackers, plan))
  {
    var stores := StoresOf(cfg.policy, trackers, plan);
    forall tp | tp in stores ensures StoredSafe(cfg, settled, tp, stores[tp]) {
      PlannedStoreSafe(cfg, settled, tp, trackers[tp], plan[tp], stores[tp]);
    }
  }

  lemma PlannedStoreSafe(cfg: Config, settled: Settled, tp: TopicPartition, t: Tracker, o: int, store: Stored)
    requires TrackerSafe(cfg, settled, tp, t) && Good(cfg, settled, tp, o)
    requires store == Stored(o + 1, CommitMetadata(cfg.policy, t, o + 1))
    ensures StoredSafe(cfg, settled, tp, store)
  {
    MetadataSafe(cfg, settled, tp, t, o);
  }

  lemma TrackedSafe(cfg: Config, settled: Settled, trackers: TrackerMap, plan: Plan)
    requires PlanSafe(cfg, settled, plan)
    ensures PlanSafe(cfg, settled, Tracked(trackers, plan))
  {
  }

  lemma AdvanceSafe(cfg: Config, settled: Settled, trackers: TrackerMap, plan: Plan)
    requires TrackersSafe(cfg, settled, trackers) && PlanSafe(cfg, settled, plan)
    ensures TrackersSafe(cfg, settled, Advance(trackers, plan))
  {
  }

  lemma SettleSafe(cfg: Config, settled: Settled, trackers: TrackerMap, c: Coordinator, box: Outbox)
    requires TrackersSafe(cfg, settled, trackers) && BoxSafe(cfg, settled, box)
    ensures TrackersSafe(cfg, settled, Settle(trackers, c, box))
  {
  }

  lemma ApplySafe(cfg: Config, settled: Settled, broker: Stores, stores: Stores, applied: set<TopicPartition>)
    requires StoresSafe(cfg, settled, broker) && StoresSafe(cfg, settled, stores)
    ensures StoresSafe(cfg, settled, Apply(broker, stores, applied))
  {
  }

  lemma RemainingSafe(cfg: Config, settled: Settled, c: Coordinator, tp: TopicPartition)
    requires BoxSafe(cfg, settled, c.pending) && BoxSafe(cfg, settled, c.inFlight)
    ensures RemainingOf(c, tp).Some? ==> Good(cfg, settled, tp, RemainingOf(c, tp).value.1)
  {
  }

  lemma RevokeAllSafe(cfg: Config, settled: Settled, trackers: TrackerMap, c: Coordinator, tps: set<TopicPartition>)
    requires TrackersSafe(cfg, settled, trackers)
    requires BoxSafe(cfg, settled, c.pending) && BoxSafe(cfg, settled, c.inFlight)
    ensures TrackersSafe(cfg, settled, RevokedTrackers(cfg.policy, trackers, c, tps))
    ensures StoresSafe(cfg, settled, RevokeStoresOf(cfg.policy, trackers, c, tps))
  {
    forall tp | tp in trackers
      ensures var p := PrepareRevoke(cfg.policy, trackers[tp], RemainingOf(c, tp));
              TrackerSafe(cfg, settled, tp, p.tracker)
              && (p.commit.Some? ==> StoredSafe(cfg, settled, tp, p.commit.value))
    {
      RemainingSafe(cfg, settled, c, tp);
      RevokeSafe(cfg, settled, tp, trackers[tp], RemainingOf(c, tp));
    }
  }

  lemma FewerSafe(cfg: Config, settled: Settled, trackers: TrackerMap, stores: Stores, box: Outbox, tps: set<TopicPartition>)
    ensures TrackersSafe(cfg, settled, trackers) ==> TrackersSafe(cfg, settled, trackers - tps)
    ensures StoresSafe(cfg, settled, stores) ==> StoresSafe(cfg, settled, stores - tps)
    ensures BoxSafe(cfg, settled, box) ==> BoxSafe(cfg, settled, box - tps) && PlanSafe(cfg, settled, OffsetsOf(box - tps))
  {
  }

  lemma InstallSafe(cfg: Config, settled: Settled, trackers: TrackerMap, incoming: TrackerMap, tps: set<TopicPartition>)
    requires TrackersSafe(cfg, settled, trackers) && TrackersSafe(cfg, settled, incoming)
    ensures TrackersSafe(cfg, settled, trackers + map tp | tp in incoming && tp in tps :: incoming[tp])
  {
  }

  // ----- the coordinator only ever holds candidates it was given

  lemma {:induction false} EnqueueAllSafe(cfg: Config, settled: Settled, c: Coordinator, xs: seq<Candidate>, max: int, n: nat)
    requires BoxSafe(cfg, settled, c.pending) && BoxSafe(cfg, settled, c.inFlight)
    requires forall i :: 0 <= i < |xs| ==> Good(cfg, settled, xs[i].tp, xs[i].offset)
    ensures EnqueueAll(c, xs, max, n).Some? ==>
              && BoxSafe(cfg, settled, EnqueueAll(c, xs, max, n).value.0.pending)
              && BoxSafe(cfg, settled, EnqueueAll(c, xs, max, n).value.0.inFlight)
    decreases |xs|
  {
    if xs != [] {
      match EnqueueOne(c, xs[0], max)
      case Skipped => EnqueueAllSafe(cfg, settled, c, xs[1..], max, n);
      case Full =>
      case Queued(c', replaced) =>
        QueuedSafe(cfg, settled, c, xs[0], max);
        EnqueueAllSafe(cfg, settled, c', xs[1..], max, if replaced then n + 1 else n);
    }
  }

  lemma QueuedSafe(cfg: Config, settled: Settled, c: Coordinator, x: Candidate, max: int)
    requires BoxSafe(cfg, settled, c.pending) && BoxSafe(cfg, settled, c.inFlight)
    requires Good(cfg, settled, x.tp, x.offset) && EnqueueOne(c, x, max).Queued?
    ensures BoxSafe(cfg, settled, EnqueueOne(c, x, max).state.pending)
    ensures BoxSafe(cfg, settled, EnqueueOne(c, x, max).state.inFlight)
  {
  }

  lemma EnqueueSafe(cfg: Config, settled: Settled, m: Coordination.Machine, xs: seq<Candidate>, max: int)
    requires MachineSafe(cfg, settled, m)
    requires forall i :: 0 <= i < |xs| ==> Good(cfg, settled, xs[i].tp, xs[i].offset)
    ensures MachineSafe(cfg, settled, Coordination.Do(m, Coordination.Enqueue(xs), max))
  {
    EnqueueAllSafe(cfg, settled, m.c, xs, max, 0);
  }

  ghost predicate Subset(box: Outbox, a: Outbox, b: Outbox) {
    forall tp :: tp in box ==> (tp in a && box[tp] == a[tp]) || (tp in b && box[tp] == b[tp])
  }

  lemma SubsetSafe(cfg: Config, settled: Settled, box: Outbox, a: Outbox, b: Outbox)
    requires Subset(box, a, b) && BoxSafe(cfg, settled, a) && BoxSafe(cfg, settled, b)
    ensures BoxSafe(cfg, settled, box)
  {
  }

  /** Every candidate after the step was already a candidate before it. */
  ghost predicate NoneInvented(m: Coordination.Machine, m': Coordination.Machine) {
    && Subset(m'.c.pending, m.c.pending, m.batch)
    && Subset(m'.c.inFlight, m.c.inFlight, m.c.pending)
    && Subset(m'.batch, m.batch, m.c.pending)
  }

  lemma CancelInventsNothing(m: Coordination.Machine, tps: set<TopicPartition>)
    ensures Subset(CancelLeases(m.c, tps).pending, m.c.pending, m.batch)
    ensures Subset(CancelLeases(m.c, tps).inFlight, m.c.inFlight, m.c.pending)
    ensures Subset(StopPartitions(m.c, tps).pending, m.c.pending, m.batch)
    ensures StopPartitions(m.c, tps).inFlight == m.c.inFlight
  {
  }

  lemma FinishInventsNothing(m: Coordination.Machine)
    ensures Subset(RetryBatch(m.c, m.batch).pending, m.c.pending, m.batch)
    ensures RetryBatch(m.c, m.batch).inFlight == map[]
    ensures Subset(DropBatch(m.c, m.batch).pending, m.c.pending, m.batch) && DropBatch(m.c, m.batch).inFlight == map[]
    ensures Subset(FinishBatch(m.c).pending, m.c.pending, m.batch) && FinishBatch(m.c).inFlight == map[]
  {
  }

  lemma ResumeInventsNothing(m: Coordination.Machine)
    ensures NoneInvented(m, Coordination.Resumed(m))
  {
  }

  lemma OutsideInventsNothing(m: Coordination.Machine, a: Coordination.Action, max: int)
    requires a.Stop? || a.Start? || a.Cancel? || a.StopAccepting?
    ensures NoneInvented(m, Coordination.Do(m, a, max))
  {
    match a {
      case Stop(tps) => CancelInventsNothing(m, tps);
      case Cancel(tps) => CancelInventsNothing(m, tps);
      case _ =>
    }
  }

  lemma FilterInventsNothing(m: Coordination.Machine, stale: set<TopicPartition>, max: int)
    ensures NoneInvented(m, Coordination.Do(m, Coordination.Filter(stale), max))
  {
    CancelInventsNothing(m, stale);
  }

  lemma FinishStepInventsNothing(m: Coordination.Machine, max: int)
    ensures NoneInvented(m, Coordination.Do(m, Coordination.Finish, max))
  {
    FinishInventsNothing(m);
    IdleInventsNothing(m, FinishBatch(m.c));
    IdleInventsNothing(m, RetryBatch(m.c, m.batch));
    IdleInventsNothing(m, DropBatch(m.c, m.batch));
  }

  lemma IdleInventsNothing(m: Coordination.Machine, c: Coordinator)
    requires Subset(c.pending, m.c.pending, m.batch) && c.inFlight == map[]
    ensures NoneInvented(m, Coordination.ToIdle(m, c))
  {
  }

  lemma WorkerInventsNothing(m: Coordination.Machine, a: Coordination.Action, max: int)
    requires a.Begin? || a.Check? || a.BrokerCommit? || a.Raise? || a.CallbackCrash?
    ensures NoneInvented(m, Coordination.Do(m, a, max))
  {
  }

  /** No action but enqueue brings in a candidate from outside. */
  lemma NothingInvented(m: Coordination.Machine, a: Coordination.Action, max: int)
    requires !a.Enqueue?
    ensures NoneInvented(m, Coordination.Do(m, a, max))
  {
    match a {
      case Filter(stale) => FilterInventsNothing(m, stale, max);
      case Resume => ResumeInventsNothing(m);
      case Finish => FinishStepInventsNothing(m, max);
      case Stop(_) => OutsideInventsNothing(m, a, max);
      case Start(_) => OutsideInventsNothing(m, a, max);
      case Cancel(_) => OutsideInventsNothing(m, a, max);
      case StopAccepting => OutsideInventsNothing(m, a, max);
      case _ => WorkerInventsNothing(m, a, max);
    }
  }

  lemma DriveSafe(cfg: Config, settled: Settled, m: Coordination.Machine, a: Coordination.Action, max: int)
    requires MachineSafe(cfg, settled, m) && !a.Enqueue?
    ensures MachineSafe(cfg, settled, Coordination.Do(m, a, max))
  {
    NothingInvented(m, a, max);
    var m' := Coordination.Do(m, a, max);
    SubsetSafe(cfg, settled, m'.c.pending, m.c.pending, m.batch);
    SubsetSafe(cfg, settled, m'.c.inFlight, m.c.inFlight, m.c.pending);
    SubsetSafe(cfg, settled, m'.batch, m.batch, m.c.pending);
  }

  // ----- settled only grows

  lemma MoreSettled(cfg: Config, settled: Settled, more: Settled, me: Member)
    requires MemberSafe(cfg, settled, me) && settled <= more
    ensures MemberSafe(cfg, more, me)
  {
  }

  lemma MoreSettledStores(cfg: Config, settled: Settled, more: Settled, stores: Stores)
    requires StoresSafe(cfg, settled, stores) && settled <= more
    ensures StoresSafe(cfg, more, stores)
  {
  }

  // ----- every step keeps everything safe

  lemma CompleteSafe(cfg: Config, v: View, e: Event, published: bool)
    requires ViewSafe(cfg, v) && Settles(cfg.dlq, e, published)
    ensures ViewSafe(cfg, Effect(cfg, v, Step.Complete(e, published)))
  {
    var more := v.settled + {(e.tp, e.offset)};
    MoreSettled(cfg, v.settled, more, v.me);
    MoreSettledStores(cfg, v.settled, more, v.broker);
    MarkAllSafe(cfg, more, v.me.trackers, e);
  }

  predicate OnTrackers(step: Step) {
    step.Fetch? || step.MakePlan? || step.PrepareSync? || step.SyncCall? || step.SyncAdvance?
    || step.ApplySettlements? || step.RevokeCall? || step.CleanupRevoke? || step.Build? || step.Restart?
  }

  lemma FetchSafe(cfg: Config, settled: Settled, trackers: TrackerMap, tp: TopicPartition, o: int)
    requires TrackersSafe(cfg, settled, trackers) && tp in trackers
    ensures TrackersSafe(cfg, settled, trackers[tp := UpdateFetched(trackers[tp], o)])
  {
  }

  lemma BuildSafe(cfg: Config, v: View, step: Step)
    requires ViewSafe(cfg, v) && step.Build? && Enabled(cfg, v, step)
    ensures TrackersSafe(cfg, v.settled, Effect(cfg, v, step).me.incoming)
  {
    var found := Lookup(v.broker, step.tp, step.lookup);
    assert found.Some? ==> StoredSafe(cfg, v.settled, step.tp, found.value);
    RebuildSafe(cfg, v.settled, step.tp, found, step.start, step.metadata);
  }

  lemma FreshSafe(cfg: Config, settled: Settled)
    ensures MemberSafe(cfg, settled, FRESH)
  {
  }

  lemma TrackerStepSafe(cfg: Config, v: View, step: Step)
    requires ViewSafe(cfg, v) && Enabled(cfg, v, step) && OnTrackers(step)
    ensures ViewSafe(cfg, Effect(cfg, v, step))
  {
    var me, s := v.me, v.settled;
    match step {
      case Fetch(tp, o) => FetchSafe(cfg, s, me.trackers, tp, o);
      case MakePlan(low, only) => PlanOfSafe(cfg, s, me.trackers, low, only);
      case PrepareSync =>
        StoresOfSafe(cfg, s, me.trackers, me.plan);
        TrackedSafe(cfg, s, me.trackers, me.plan);
      case SyncCall(applied, _) => ApplySafe(cfg, s, v.broker, me.syncStores, applied);
      case SyncAdvance => AdvanceSafe(cfg, s, me.trackers, me.syncPlan);
      case ApplySettlements => SettleSafe(cfg, s, me.trackers, me.coordinator.c, me.settlements);
      case RevokeCall(tp) => ApplySafe(cfg, s, v.broker, me.revokeStores, {tp});
      case CleanupRevoke(tps) => FewerSafe(cfg, s, me.trackers, me.revokeStores, me.settlements, tps);
      case Build(_, _, _, _) => BuildSafe(cfg, v, step);
      case Restart => FreshSafe(cfg, s);
    }
  }

  predicate OnCoordinator(step: Step) {
    step.EnqueuePlan? || step.Coordinate? || step.FilterBatch? || step.BatchCall? || step.ReportBatch?
    || step.BeginRevoke? || step.Install?
  }

  lemma FilterSafe(cfg: Config, settled: Settled, me: Member, stale: set<TopicPartition>)
    requires TrackersSafe(cfg, settled, me.trackers) && BoxSafe(cfg, settled, me.coordinator.batch)
    ensures StoresSafe(cfg, settled, StoresOf(cfg.policy, me.trackers, OffsetsOf(me.coordinator.batch - stale)))
  {
    FewerSafe(cfg, settled, me.trackers, me.syncStores, me.coordinator.batch, stale);
    StoresOfSafe(cfg, settled, me.trackers, OffsetsOf(me.coordinator.batch - stale));
  }

  lemma ActiveSafe(cfg: Config, settled: Settled, c: Coordinator, batch: Outbox)
    requires BoxSafe(cfg, settled, batch)
    ensures BoxSafe(cfg, settled, ActiveOf(c, batch))
  {
  }

  lemma EnqueueStepSafe(cfg: Config, v: View, step: Step)
    requires ViewSafe(cfg, v) && step.EnqueuePlan? && Enabled(cfg, v, step)
    ensures MachineSafe(cfg, v.settled, Effect(cfg, v, step).me.coordinator)
  {
    var xs := step.candidates;
    forall i | 0 <= i < |xs| ensures Good(cfg, v.settled, xs[i].tp, xs[i].offset) {
      assert xs[i].tp in v.me.plan;
    }
    EnqueueSafe(cfg, v.settled, v.me.coordinator, xs, cfg.queueMax);
  }

  lemma DriveMember(cfg: Config, settled: Settled, me: Member, a: Coordination.Action)
    requires MemberSafe(cfg, settled, me) && !a.Enqueue?
    ensures MemberSafe(cfg, settled, Drive(cfg, me, a))
  {
    DriveSafe(cfg, settled, me.coordinator, a, cfg.queueMax);
  }

  lemma FilterStepSafe(cfg: Config, v: View)
    requires ViewSafe(cfg, v)
    ensures ViewSafe(cfg, Effect(cfg, v, FilterBatch))
  {
    var me, stale := v.me, Stale(v.me.trackers, v.me.coordinator.batch);
    DriveMember(cfg, v.settled, me, Coordination.Filter(stale));
    FilterSafe(cfg, v.settled, me, stale);
  }

  lemma BatchCallSafe(cfg: Config, v: View, applied: set<TopicPartition>, raised: Option<Coordination.Reason>)
    requires ViewSafe(cfg, v)
    ensures ViewSafe(cfg, Effect(cfg, v, BatchCall(applied, raised)))
  {
    DriveMember(cfg, v.settled, v.me, if raised.None? then Coordination.BrokerCommit else Coordination.Raise(raised.value));
    ApplySafe(cfg, v.settled, v.broker, v.me.batchStores, applied);
  }

  lemma ReportStepSafe(cfg: Config, v: View)
    requires ViewSafe(cfg, v)
    ensures ViewSafe(cfg, Effect(cfg, v, ReportBatch))
  {
    DriveMember(cfg, v.settled, v.me, Coordination.Resume);
    ActiveSafe(cfg, v.settled, v.me.coordinator.c, v.me.coordinator.batch);
  }

  lemma RebalanceStepSafe(cfg: Config, v: View, step: Step)
    requires ViewSafe(cfg, v) && Enabled(cfg, v, step) && (step.BeginRevoke? || step.Install?)
    ensures ViewSafe(cfg, Effect(cfg, v, step))
  {
    var me, s := v.me, v.settled;
    match step {
      case BeginRevoke(tps) =>
        DriveMember(cfg, s, me, Coordination.Stop(tps));
        RevokeAllSafe(cfg, s, me.trackers, me.coordinator.c, tps);
      case Install(tps) =>
        DriveMember(cfg, s, me, Coordination.Start(tps));
        InstallSafe(cfg, s, me.trackers, me.incoming, tps);
    }
  }

  lemma CoordinatorStepSafe(cfg: Config, v: View, step: Step)
    requires ViewSafe(cfg, v) && Enabled(cfg, v, step) && OnCoordinator(step)
    ensures ViewSafe(cfg, Effect(cfg, v, step))
  {
    match step {
      case EnqueuePlan(_) => EnqueueStepSafe(cfg, v, step);
      case Coordinate(a) => DriveMember(cfg, v.settled, v.me, a);
      case BeginRevoke(_) => RebalanceStepSafe(cfg, v, step);
      case Install(_) => RebalanceStepSafe(cfg, v, step);
      case FilterBatch => FilterStepSafe(cfg, v);
      case BatchCall(applied, raised) => BatchCallSafe(cfg, v, applied, raised);
      case ReportBatch => ReportStepSafe(cfg, v);
    }
  }

  lemma StepSafe(cfg: Config, v: View, step: Step)
    requires ViewSafe(cfg, v) && Enabled(cfg, v, step)
    ensures ViewSafe(cfg, Effect(cfg, v, step))
  {
    if step.Complete? {
      if Settles(cfg.dlq, step.event, step.published) {
        CompleteSafe(cfg, v, step.event, step.published);
      }
    } else if OnTrackers(step) {
      TrackerStepSafe(cfg, v, step);
    } else {
      CoordinatorStepSafe(cfg, v, step);
    }
  }

  /** An offset becomes settled only by the final outcome of its own current-epoch event. */
  lemma SettledOnlyByOutcome(cfg: Config, v: View, step: Step, tp: TopicPartition, o: int)
    requires Enabled(cfg, v, step) && (tp, o) !in v.settled && (tp, o) in Effect(cfg, v, step).settled
    ensures step.Complete? && step.event.tp == tp && step.event.offset == o
    ensures step.event.success || !cfg.dlq.enabled || step.event.attempt < cfg.dlq.maxRetries || step.published
    ensures tp in v.me.trackers && step.event.epoch == v.me.trackers[tp].epoch
  {
  }

  lemma SettledGrows(cfg: Config, v: View, step: Step)
    ensures v.settled <= Effect(cfg, v, step).settled
  {
  }

  // ----- the whole group

  datatype World = World(members: map<nat, Member>, broker: Stores, settled: Settled)

  function ViewOf(w: World, id: nat): View {
    View(if id in w.members then w.members[id] else FRESH, w.broker, w.settled)
  }

  /** Member `id` takes a step; a step that is not enabled changes nothing. */
  ghost function Next(cfg: Config, w: World, id: nat, step: Step): World {
    var v := ViewOf(w, id);
    if Enabled(cfg, v, step) then
      var v' := Effect(cfg, v, step);
      World(w.members[id := v'.me], v'.broker, v'.settled)
    else w
  }

  ghost function Run(cfg: Config, w: World, steps: seq<(nat, Step)>): World
    decreases |steps|
  {
    if steps == [] then w else Run(cfg, Next(cfg, w, steps[0].0, steps[0].1), steps[1..])
  }

  ghost predicate WorldSafe(cfg: Config, w: World) {
    && (forall id :: id in w.members ==> MemberSafe(cfg, w.settled, w.members[id]))
    && StoresSafe(cfg, w.settled, w.broker)
  }

  /** At the start nothing has settled and no stored position is past its partition's origin. */
  ghost predicate Initial(cfg: Config, w: World) {
    && w.members == map[] && w.settled == {}
    && (forall tp :: tp in w.broker ==> w.broker[tp].position <= cfg.origin(tp) && Decode(w.broker[tp].metadata) == {})
  }

  lemma NextSafe(cfg: Config, w: World, id: nat, step: Step)
    requires WorldSafe(cfg, w)
    ensures WorldSafe(cfg, Next(cfg, w, id, step))
  {
    var v := ViewOf(w, id);
    if Enabled(cfg, v, step) {
      FreshSafe(cfg, w.settled);
      StepSafe(cfg, v, step);
      SettledGrows(cfg, v, step);
      OthersSafe(cfg, w, id, Effect(cfg, v, step));
    }
  }

  lemma OthersSafe(cfg: Config, w: World, id: nat, v': View)
    requires WorldSafe(cfg, w) && ViewSafe(cfg, v') && w.settled <= v'.settled
    ensures WorldSafe(cfg, World(w.members[id := v'.me], v'.broker, v'.settled))
  {
    forall other | other in w.members && other != id ensures MemberSafe(cfg, v'.settled, w.members[other]) {
      MoreSettled(cfg, w.settled, v'.settled, w.members[other]);
    }
  }

  lemma {:induction false} RunSafe(cfg: Config, w: World, steps: seq<(nat, Step)>)
    requires WorldSafe(cfg, w)
    ensures WorldSafe(cfg, Run(cfg, w, steps))
    decreases |steps|
  {
    if steps != [] {
      NextSafe(cfg, w, steps[0].0, steps[0].1);
      RunSafe(cfg, Next(cfg, w, steps[0].0, steps[0].1), steps[1..]);
    }
  }

  /**
   At-least-once: after every run of any number of members, every offset between a
   partition's origin and the position stored at the broker has settled, and so has
   every offset its metadata lets the next owner skip.
   */
  lemma AtLeastOnceDelivery(cfg: Config, w: World, steps: seq<(nat, Step)>, tp: TopicPartition, o: int)
    requires Initial(cfg, w) && tp in Run(cfg, w, steps).broker
    ensures var end := Run(cfg, w, steps);
            0 <= o && cfg.origin(tp) <= o < end.broker[tp].position ==> (tp, o) in end.settled
    ensures var end := Run(cfg, w, steps);
            o in Decode(end.broker[tp].metadata) ==> (tp, o) in end.settled
  {
    assert WorldSafe(cfg, w);
    RunSafe(cfg, w, steps);
  }

  /** In every run each tracker's committed prefix and completed set have settled. */
  lemma TrackersNeverRunAhead(cfg: Config, w: World, steps: seq<(nat, Step)>, id: nat, tp: TopicPartition, o: int)
    requires Initial(cfg, w)
    requires var end := Run(cfg, w, steps); id in end.members && tp in end.members[id].trackers
    ensures var end := Run(cfg, w, steps);
            var t := end.members[id].trackers[tp];
            o in t.completed || (0 <= o && cfg.origin(tp) <= o <= t.committed) ==> (tp, o) in end.settled
  {
    assert WorldSafe(cfg, w);
    RunSafe(cfg, w, steps);
  }

  // ----- a coordinator settlement moves a tracker only after the broker answered

  ghost predicate Sound(me: Member) {
    Coordination.Inv(me.coordinator) && Leases(me.settlements) <= me.coordinator.reported
  }

  lemma ReportedGrows(m: Coordination.Machine, a: Coordination.Action, max: int)
    ensures m.reported <= Coordination.Do(m, a, max).reported
    ensures a.Resume? && m.phase.Returned? ==>
              Leases(ActiveOf(m.c, m.batch)) <= Coordination.Do(m, a, max).reported
  {
  }

  lemma FreshSound()
    ensures Sound(FRESH)
  {
  }

  /** What a step asks of the coordinator, if anything. */
  function Request(me: Member, step: Step): Option<Coordination.Action> {
    match step
    case EnqueuePlan(xs) => Some(Coordination.Enqueue(xs))
    case Coordinate(a) => Some(a)
    case FilterBatch => Some(Coordination.Filter(Stale(me.trackers, me.coordinator.batch)))
    case BatchCall(_, raised) =>
      Some(if raised.None? then Coordination.BrokerCommit else Coordination.Raise(raised.value))
    case ReportBatch => Some(Coordination.Resume)
    case BeginRevoke(tps) => Some(Coordination.Stop(tps))
    case Install(tps) => Some(Coordination.Start(tps))
    case _ => None
  }

  /** A step reaches the coordinator only through its request; only a report hands out settlements. */
  ghost predicate Follows(cfg: Config, me: Member, step: Step, me': Member) {
    var a := Request(me, step);
    if step.Restart? then me' == FRESH
    else
      && me'.coordinator == (if a.Some? then Coordination.Do(me.coordinator, a.value, cfg.queueMax) else me.coordinator)
      && me'.settlements == (if step.ReportBatch? && me.coordinator.phase.Returned?
                             then ActiveOf(me.coordinator.c, me.coordinator.batch) else me.settlements)
  }

  lemma CompletionsFollow(cfg: Config, v: View, step: Step)
    requires step.Complete? || step.Fetch? || step.MakePlan? || step.PrepareSync? || step.SyncCall? || step.SyncAdvance?
    ensures Follows(cfg, v.me, step, Effect(cfg, v, step).me)
  {
  }

  lemma TrackerStepsFollow(cfg: Config, v: View, step: Step)
    requires step.ApplySettlements? || step.RevokeCall? || step.CleanupRevoke? || step.Build? || step.Restart?
    ensures Follows(cfg, v.me, step, Effect(cfg, v, step).me)
  {
  }

  lemma RequestsFollow(cfg: Config, v: View, step: Step)
    requires step.EnqueuePlan? || step.Coordinate? || step.BatchCall? || step.ReportBatch?
    ensures Follows(cfg, v.me, step, Effect(cfg, v, step).me)
  {
  }

  lemma DrivesFollow(cfg: Config, v: View, step: Step)
    requires step.FilterBatch? || step.BeginRevoke? || step.Install?
    ensures Follows(cfg, v.me, step, Effect(cfg, v, step).me)
  {
  }

  lemma StepFollows(cfg: Config, v: View, step: Step)
    ensures Follows(cfg, v.me, step, Effect(cfg, v, step).me)
  {
    if step.EnqueuePlan? || step.Coordinate? || step.BatchCall? || step.ReportBatch? {
      RequestsFollow(cfg, v, step);
    } else if step.FilterBatch? || step.BeginRevoke? || step.Install? {
      DrivesFollow(cfg, v, step);
    } else if step.ApplySettlements? || step.RevokeCall? || step.CleanupRevoke? || step.Build? || step.Restart? {
      TrackerStepsFollow(cfg, v, step);
    } else {
      CompletionsFollow(cfg, v, step);
    }
  }

  lemma RequestSound(cfg: Config, me: Member, a: Coordination.Action, me': Member)
    requires Sound(me) && me'.coordinator == Coordination.Do(me.coordinator, a, cfg.queueMax)
    requires me'.settlements == me.settlements
             || (a.Resume? && me.coordinator.phase.Returned? && me'.settlements == ActiveOf(me.coordinator.c, me.coordinator.batch))
    ensures Sound(me')
  {
    Coordination.StepKeeps(me.coordinator, a, cfg.queueMax);
    ReportedGrows(me.coordinator, a, cfg.queueMax);
  }

  /** The next state comes from a request to the coordinator, from none, or from a restart. */
  ghost predicate Driven(cfg: Config, me: Member, a: Option<Coordination.Action>, me': Member) {
    || me' == FRESH
    || (me'.coordinator == (if a.Some? then Coordination.Do(me.coordinator, a.value, cfg.queueMax) else me.coordinator)
        && (me'.settlements == me.settlements
            || (a == Some(Coordination.Resume) && me.coordinator.phase.Returned?
                && me'.settlements == ActiveOf(me.coordinator.c, me.coordinator.batch))))
  }

  lemma FollowingIsDriven(cfg: Config, me: Member, step: Step, me': Member)
    requires Follows(cfg, me, step, me')
    ensures Driven(cfg, me, Request(me, step), me')
  {
  }

  lemma DrivenSound(cfg: Config, me: Member, a: Option<Coordination.Action>, me': Member)
    requires Sound(me) && Driven(cfg, me, a, me')
    ensures Sound(me')
  {
    FreshSound();
    if me' != FRESH && a.Some? {
      RequestSound(cfg, me, a.value, me');
    }
  }

  lemma StepSound(cfg: Config, v: View, step: Step)
    requires Sound(v.me)
    ensures Sound(Effect(cfg, v, step).me)
  {
    var me' := Effect(cfg, v, step).me;
    StepFollows(cfg, v, step);
    FollowingIsDriven(cfg, v.me, step, me');
    DrivenSound(cfg, v.me, Request(v.me, step), me');
  }

  ghost predicate SoundMembers(members: map<nat, Member>) {
    forall id :: id in members ==> Sound(members[id])
  }

  ghost predicate AllSound(w: World) {
    SoundMembers(w.members)
  }

  lemma NextSound(cfg: Config, w: World, id: nat, step: Step)
    requires AllSound(w)
    ensures AllSound(Next(cfg, w, id, step))
  {
    FreshSound();
    var v := ViewOf(w, id);
    assert Sound(v.me);
    StepSound(cfg, v, step);
    MembersSound(w.members, id, Effect(cfg, v, step).me);
  }

  lemma MembersSound(members: map<nat, Member>, id: nat, me: Member)
    requires SoundMembers(members) && Sound(me)
    ensures SoundMembers(members[id := me])
  {
  }

  lemma {:induction false} RunSound(cfg: Config, w: World, steps: seq<(nat, Step)>)
    requires AllSound(w)
    ensures AllSound(Run(cfg, w, steps))
    decreases |steps|
  {
    if steps != [] {
      NextSound(cfg, w, steps[0].0, steps[0].1);
      RunSound(cfg, Next(cfg, w, steps[0].0, steps[0].1), steps[1..]);
    }
  }

  /** In every run, a settlement that would move a tracker belongs to a broker commit that returned. */
  lemma SettlementsWereCommitted(cfg: Config, w: World, steps: seq<(nat, Step)>, id: nat, tp: TopicPartition)
    requires Initial(cfg, w)
    requires var end := Run(cfg, w, steps); id in end.members && tp in end.members[id].trackers
    ensures var me := Run(cfg, w, steps).members[id];
            Settle(me.trackers, me.coordinator.c, me.settlements)[tp] != me.trackers[tp] ==>
              tp in me.settlements && LeaseOf(me.settlements[tp]) in me.coordinator.committed
  {
    RunSound(cfg, w, steps);
    var me := Run(cfg, w, steps).members[id];
    assert Sound(me);
    assert tp in me.settlements ==> LeaseOf(me.settlements[tp]) in Leases(me.settlements);
  }

  // ----- stale candidates

  /**
   A filtered batch sends commits for exactly the partitions tracked in the candidate's own
   epoch, right past the candidate's offset; every other candidate's lease is dead.
   */
  lemma FilteredBatchIsCurrent(policy: Policy, trackers: TrackerMap, c: Coordinator, batch: Outbox, tp: TopicPartition)
    requires Keyed(batch) && tp in batch
    ensures var stale := Stale(trackers, batch);
            var sent := StoresOf(policy, trackers, OffsetsOf(batch - stale));
            var current := tp in trackers && trackers[tp].epoch == batch[tp].epoch;
            && (tp in sent <==> current)
            && (current ==> sent[tp].position == batch[tp].offset + 1)
            && (!current ==> !IsActive(CancelLeases(c, stale), LeaseOf(batch[tp])))
  {
    var stale := Stale(trackers, batch);
    assert batch[tp].tp == tp;
    if tp in stale {
      Coordination.CancelledAreDead(c, stale, LeaseOf(batch[tp]));
    }
  }
}
