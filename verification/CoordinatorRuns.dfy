/**
 The coordinator under every interleaving: the worker advances through explicit
 phases, and between any two of its steps other coroutines may enqueue, stop,
 start or cancel. A commit batch is revalidated candidate by candidate on the
 broker thread while the event loop keeps running.
 */
module CoordinatorRuns {
  import opened Common
  import opened CoordinatorState

  datatype Reason = KafkaException | StaleLease | WorkerCrash

  /** Where the worker is; every phase is an await point. */
  datatype Phase =
    | Idle
    | Submitted                  // waiting for the control lock inside commit_sync
    | Checking                   // on the broker thread, revalidating leases one by one
    | Refused                    // some lease was inactive, the commit was skipped
    | Returned                   // commit_sync came back without an exception
    | Raised(reason: Reason)     // commit_sync raised
    | Handling(reason: Reason)   // failure callback running
    | Settling                   // success callback running

  datatype Machine = Machine(
    c: Coordinator,
    phase: Phase,
    batch: Outbox,
    tracked: set<TopicPartition>,
    checked: set<TopicPartition>,
    committed: set<Lease>,       // leases that were part of a broker commit that returned
    reported: set<Lease>)        // leases reported to the success callback

  const START := Machine(EMPTY, Idle, map[], {}, {}, {}, {})

  datatype Action =
    | Enqueue(candidates: seq<Candidate>)
    | Stop(tps: set<TopicPartition>)
    | Start(tps: set<TopicPartition>)
    | Cancel(tps: set<TopicPartition>)
    | StopAccepting
    | Begin
    | Filter(stale: set<TopicPartition>)
    | Check(tp: TopicPartition)
    | BrokerCommit
    | Raise(reason: Reason)
    | Resume
    | CallbackCrash
    | Finish

  predicate InCommitSync(p: Phase) { p.Submitted? || p.Checking? }

  predicate Enabled(m: Machine, a: Action) {
    match a
    case Enqueue(_) => true
    case Stop(_) => true
    case Start(_) => true
    case Cancel(_) => true
    case StopAccepting => true
    case Begin => m.phase.Idle? && m.c.pending != map[] && m.c.healthy
    case Filter(stale) => m.phase.Submitted? && stale <= m.batch.Keys
    case Check(tp) => m.phase.Checking? && tp in m.tracked - m.checked && tp in m.batch
    case BrokerCommit => m.phase.Checking? && m.checked == m.tracked
    case Raise(reason) => InCommitSync(m.phase) && !reason.StaleLease?
    case Resume => m.phase.Refused? || m.phase.Returned? || m.phase.Raised?
    case CallbackCrash => m.phase.Handling? || m.phase.Settling?
    case Finish => m.phase.Handling? || m.phase.Settling?
  }

  function ToIdle(m: Machine, c: Coordinator): Machine {
    m.(c := c, phase := Idle, batch := map[], tracked := {}, checked := {})
  }

  function Effect(m: Machine, a: Action, max: int): Machine {
    match a
    case Enqueue(xs) => m.(c := CoordinatorState.Enqueue(m.c, xs, max).0)
    case Stop(tps) => m.(c := StopPartitions(m.c, tps))
    case Start(tps) => m.(c := StartPartitions(m.c, tps))
    case Cancel(tps) => m.(c := CancelLeases(m.c, tps))
    case StopAccepting => m.(c := m.c.(accepting := false))
    case Begin => m.(c := StartBatch(m.c), batch := m.c.pending, phase := Submitted)
    case Filter(stale) =>
      m.(c := if stale == {} then m.c else CancelLeases(m.c, stale),
         tracked := m.batch.Keys - stale,
         phase := if m.batch.Keys - stale == {} then Returned else Checking)
    case Check(tp) =>
      if tp in m.batch && IsActive(m.c, LeaseOf(m.batch[tp])) then m.(checked := m.checked + {tp})
      else m.(phase := Refused)
    case BrokerCommit =>
      m.(committed := m.committed + Leases(Within(m.batch, m.tracked)), phase := Returned)
    case Raise(reason) => m.(phase := Raised(reason))
    case Resume => Resumed(m)
    case CallbackCrash => m.(c := Crash(m.c))
    case Finish =>
      ToIdle(m, if m.phase.Settling? then FinishBatch(m.c)
                else if m.phase.Handling? && m.phase.reason.KafkaException? then RetryBatch(m.c, m.batch)
                else DropBatch(m.c, m.batch))
  }

  function Resumed(m: Machine): Machine {
    match m.phase
    case Refused => m.(c := CancelLeases(m.c, m.tracked), phase := Handling(StaleLease))
    case Returned =>
      m.(c := SettleBatch(m.c, m.batch),
         reported := m.reported + Leases(ActiveOf(m.c, m.batch)),
         phase := Settling)
    case Raised(reason) =>
      m.(c := if reason.WorkerCrash? then Crash(m.c) else m.c, phase := Handling(reason))
    case _ => m
  }

  /** One step; an action that is not enabled does nothing. */
  function Do(m: Machine, a: Action, max: int): Machine {
    if Enabled(m, a) then Effect(m, a, max) else m
  }

  function Run(m: Machine, actions: seq<Action>, max: int): Machine
    decreases |actions|
  {
    if actions == [] then m else Run(Do(m, actions[0], max), actions[1..], max)
  }

  // ----- the inductive invariant

  /** What the phase says about the batch: once filtered, only tracked candidates are in flight. */
  ghost predicate PhaseFacts(m: Machine) {
    && (m.phase.Idle? ==> m.batch == map[])
    && (m.phase.Checking? || m.phase.Returned? ==> m.c.inFlight.Keys <= m.tracked)
    && (m.phase.Returned? ==> Leases(Within(m.batch, m.tracked)) <= m.committed)
  }

  ghost predicate Inv(m: Machine) {
    Well(m.c, m.batch, m.phase.Settling?) && PhaseFacts(m) && m.reported <= m.committed
  }

  /** What no section ever does: revive a dead lease, reuse a lease id, lower a settled offset. */
  ghost predicate Live(c: Coordinator, l: Lease) {
    Names(c.pending, l) || Names(c.inFlight, l)
  }

  ghost predicate Evolves(c: Coordinator, c': Coordinator) {
    && c.leaseCounter <= c'.leaseCounter
    && (forall l :: Live(c', l) ==> Live(c, l) || l.id > c.leaseCounter)
    && (forall tp :: SettledIn(c.settled, tp) <= SettledIn(c'.settled, tp))
  }

  // ----- enqueue in the machine

  ghost predicate GrowsOutbox(c: Coordinator, c': Coordinator) {
    && c'.inFlight == c.inFlight && c'.settled == c.settled && c'.stopped == c.stopped
    && c.leaseCounter <= c'.leaseCounter
    && (forall l :: Names(c'.pending, l) ==> Names(c.pending, l) || (l.id > c.leaseCounter && l.tp !in c.stopped))
  }

  lemma QueueGrows(c: Coordinator, x: Candidate)
    requires Wanted(c, x)
    ensures GrowsOutbox(c, Queue(c, x))
  {
  }

  lemma GrowsTransitive(a: Coordinator, b: Coordinator, c: Coordinator)
    requires GrowsOutbox(a, b) && GrowsOutbox(b, c)
    ensures GrowsOutbox(a, c)
  {
  }

  lemma {:induction false} EnqueueAllGrows(c: Coordinator, batch: Outbox, settling: bool, max: int, xs: seq<Candidate>, count: nat)
    requires Well(c, batch, settling) && EnqueueAll(c, xs, max, count).Some?
    ensures GrowsOutbox(c, EnqueueAll(c, xs, max, count).value.0)
    decreases |xs|
  {
    if xs != [] {
      if EnqueueOne(c, xs[0], max).Skipped? {
        EnqueueAllGrows(c, batch, settling, max, xs[1..], count);
      } else {
        EnqueueOneKeeps(c, batch, settling, max, xs[0]);
        EnqueueAllGrows(Queue(c, xs[0]), batch, settling, max, xs[1..],
                        if xs[0].tp in c.pending then count + 1 else count);
        QueueGrows(c, xs[0]);
        GrowsTransitive(c, Queue(c, xs[0]), EnqueueAll(c, xs, max, count).value.0);
      }
    }
  }

  lemma EnqueueGrows(c: Coordinator, batch: Outbox, settling: bool, max: int, xs: seq<Candidate>)
    requires Well(c, batch, settling)
    ensures GrowsOutbox(c, CoordinatorState.Enqueue(c, xs, max).0)
  {
    if c.accepting && c.healthy && EnqueueAll(c, xs, max, 0).Some? {
      EnqueueAllGrows(c, batch, settling, max, xs, 0);
    }
  }

  lemma GrowthEvolves(c: Coordinator, c': Coordinator)
    requires GrowsOutbox(c, c')
    ensures Evolves(c, c')
  {
  }

  // ----- sections that only drop or move candidates

  ghost predicate Shrinks(c: Coordinator, c': Coordinator) {
    c'.leaseCounter == c.leaseCounter && c'.settled == c.settled && forall l :: Live(c', l) ==> Live(c, l)
  }

  lemma ShrinkEvolves(c: Coordinator, c': Coordinator)
    requires Shrinks(c, c')
    ensures Evolves(c, c')
  {
  }

  lemma CancelShrinks(c: Coordinator, tps: set<TopicPartition>)
    ensures Shrinks(c, CancelLeases(c, tps))
    ensures CancelLeases(c, tps).inFlight.Keys == c.inFlight.Keys - tps
    ensures CancelLeases(c, tps).pending.Keys <= c.pending.Keys
  {
  }

  lemma StopShrinks(c: Coordinator, tps: set<TopicPartition>)
    ensures Shrinks(c, StopPartitions(c, tps))
    ensures StopPartitions(c, tps).inFlight == c.inFlight
    ensures StopPartitions(c, tps).pending.Keys <= c.pending.Keys
  {
  }

  lemma CancelStep(c: Coordinator, batch: Outbox, settling: bool, tps: set<TopicPartition>)
    requires Well(c, batch, settling)
    ensures Well(CancelLeases(c, tps), batch, settling)
    ensures Evolves(c, CancelLeases(c, tps))
    ensures CancelLeases(c, tps).inFlight.Keys == c.inFlight.Keys - tps
  {
    CancelKeeps(c, batch, settling, tps);
    CancelShrinks(c, tps);
    ShrinkEvolves(c, CancelLeases(c, tps));
  }

  lemma RetryEvolves(c: Coordinator)
    ensures Evolves(c, c.(pending := c.pending + c.inFlight, inFlight := map[]))
  {
  }

  lemma ClearEvolves(c: Coordinator, cancelled: set<Lease>)
    ensures Evolves(c, c.(inFlight := map[], cancelled := cancelled))
  {
  }

  // ----- what other coroutines do between two worker steps

  predicate Outside(a: Action) {
    a.Enqueue? || a.Stop? || a.Start? || a.Cancel? || a.StopAccepting?
  }

  lemma OutsideKeeps(m: Machine, a: Action, max: int)
    requires Inv(m) && Outside(a)
    ensures Inv(Do(m, a, max))
  {
    var s := m.phase.Settling?;
    match a {
      case Enqueue(xs) =>
        EnqueueKeeps(m.c, m.batch, s, max, xs);
        EnqueueGrows(m.c, m.batch, s, max, xs);
      case Stop(tps) =>
        StopKeeps(m.c, m.batch, s, tps);
        StopShrinks(m.c, tps);
      case Cancel(tps) =>
        CancelStep(m.c, m.batch, s, tps);
      case Start(_) =>
      case StopAccepting =>
    }
  }

  lemma OutsideEvolves(m: Machine, a: Action, max: int)
    requires Inv(m) && Outside(a)
    ensures Evolves(m.c, Do(m, a, max).c)
  {
    match a {
      case Enqueue(xs) =>
        EnqueueGrows(m.c, m.batch, m.phase.Settling?, max, xs);
        GrowthEvolves(m.c, Do(m, a, max).c);
      case Stop(tps) =>
        StopShrinks(m.c, tps);
        ShrinkEvolves(m.c, Do(m, a, max).c);
      case Cancel(tps) =>
        CancelShrinks(m.c, tps);
        ShrinkEvolves(m.c, Do(m, a, max).c);
      case Start(_) =>
      case StopAccepting =>
    }
  }

  // ----- worker steps

  lemma BeginKeeps(m: Machine, max: int)
    requires Inv(m) && Enabled(m, Begin)
    ensures Inv(Effect(m, Begin, max)) && Evolves(m.c, StartBatch(m.c))
  {
  }

  lemma FilterKeeps(m: Machine, stale: set<TopicPartition>, max: int)
    requires Inv(m) && Enabled(m, Filter(stale))
    ensures Inv(Effect(m, Filter(stale), max)) && Evolves(m.c, Effect(m, Filter(stale), max).c)
  {
    CancelStep(m.c, m.batch, false, stale);
    FilteredFacts(m.c, m.batch, stale);
  }

  lemma FilteredFacts(c: Coordinator, batch: Outbox, stale: set<TopicPartition>)
    requires Part(c.inFlight, batch)
    ensures c.inFlight.Keys - stale <= batch.Keys - stale
    ensures stale == {} ==> c.inFlight.Keys - stale == c.inFlight.Keys
    ensures Leases(Within(batch, {})) == {}
  {
  }

  /** Checking a lease, committing and raising leave the coordinator itself alone. */
  lemma ThreadStepKeeps(m: Machine, a: Action, max: int)
    requires Inv(m) && Enabled(m, a) && (a.Check? || a.BrokerCommit? || a.Raise?)
    ensures Inv(Effect(m, a, max)) && Effect(m, a, max).c == m.c
  {
  }

  lemma CrashKeeps(c: Coordinator, batch: Outbox, settling: bool)
    requires Well(c, batch, settling)
    ensures Well(Crash(c), batch, settling) && Evolves(c, Crash(c))
  {
  }

  /** Only candidates of a commit that returned are reported as settled. */
  lemma ReportsOnlyCommitted(m: Machine)
    requires Inv(m) && m.phase.Returned?
    ensures Leases(ActiveOf(m.c, m.batch)) <= m.committed
  {
  }

  lemma ReturnedKeeps(m: Machine)
    requires Inv(m) && m.phase.Returned?
    ensures Inv(Resumed(m)) && Evolves(m.c, Resumed(m).c)
  {
    SettleKeeps(m.c, m.batch);
    ReportsOnlyCommitted(m);
    SettledRises(m.c, m.batch, Resumed(m).c);
  }

  lemma RefusedKeeps(m: Machine)
    requires Inv(m) && m.phase.Refused?
    ensures Inv(Resumed(m)) && Evolves(m.c, Resumed(m).c)
  {
    CancelStep(m.c, m.batch, false, m.tracked);
  }

  lemma RaisedKeeps(m: Machine)
    requires Inv(m) && m.phase.Raised?
    ensures Inv(Resumed(m)) && Evolves(m.c, Resumed(m).c)
  {
    CrashKeeps(m.c, m.batch, false);
  }

  lemma ResumeKeeps(m: Machine)
    requires Inv(m) && Enabled(m, Resume)
    ensures Inv(Resumed(m)) && Evolves(m.c, Resumed(m).c)
  {
    match m.phase {
      case Refused =>
        RefusedKeeps(m);
      case Returned =>
        ReturnedKeeps(m);
      case Raised(_) =>
        RaisedKeeps(m);
    }
  }

  lemma RetryFinishKeeps(m: Machine, max: int)
    requires Inv(m) && m.phase == Handling(KafkaException)
    ensures Inv(Effect(m, Finish, max)) && Evolves(m.c, Effect(m, Finish, max).c)
  {
    RetryFinishState(m, max);
    RetryWell(m.c, m.batch);
    RetryEvolves(m.c);
  }

  lemma RetryFinishState(m: Machine, max: int)
    requires Inv(m) && m.phase == Handling(KafkaException)
    ensures Effect(m, Finish, max) == ToIdle(m, m.c.(pending := m.c.pending + m.c.inFlight, inFlight := map[]))
  {
    RetryState(m.c, m.batch);
  }

  lemma RetryWell(c: Coordinator, batch: Outbox)
    requires Well(c, batch, false)
    ensures Well(c.(pending := c.pending + c.inFlight, inFlight := map[]), map[], false)
  {
    RetryKeeps(c, batch);
  }

  lemma FinishStepKeeps(m: Machine, max: int)
    requires Inv(m) && Enabled(m, Finish)
    ensures Inv(Effect(m, Finish, max)) && Evolves(m.c, Effect(m, Finish, max).c)
  {
    if m.phase.Settling? {
      FinishKeeps(m.c, m.batch, true);
      ClearEvolves(m.c, FinishBatch(m.c).cancelled);
    } else if m.phase.reason.KafkaException? {
      RetryFinishKeeps(m, max);
    } else {
      DropKeeps(m.c, m.batch, false);
      ClearEvolves(m.c, DropBatch(m.c, m.batch).cancelled);
    }
  }

  lemma StepKeeps(m: Machine, a: Action, max: int)
    requires Inv(m)
    ensures Inv(Do(m, a, max)) && Evolves(m.c, Do(m, a, max).c)
  {
    if Outside(a) {
      OutsideKeeps(m, a, max);
      OutsideEvolves(m, a, max);
    } else if Enabled(m, a) {
      match a {
        case Begin => BeginKeeps(m, max);
        case Filter(stale) => FilterKeeps(m, stale, max);
        case Check(_) => ThreadStepKeeps(m, a, max);
        case BrokerCommit => ThreadStepKeeps(m, a, max);
        case Raise(_) => ThreadStepKeeps(m, a, max);
        case Resume => ResumeKeeps(m);
        case CallbackCrash => CrashKeeps(m.c, m.batch, m.phase.Settling?);
        case Finish => FinishStepKeeps(m, max);
      }
    }
  }

  // ----- capacity

  ghost predicate NoNewPartition(c: Coordinator, c': Coordinator) {
    c'.pending.Keys + c'.inFlight.Keys <= c.pending.Keys + c.inFlight.Keys
  }

  lemma OnlyEnqueueAdds(m: Machine, a: Action, max: int)
    requires Inv(m) && !a.Enqueue?
    ensures NoNewPartition(m.c, Do(m, a, max).c)
  {
    match a {
      case Resume => ResumeAddsNone(m);
      case Finish => FinishAddsNone(m, max);
      case _ =>
    }
  }

  lemma ResumeAddsNone(m: Machine)
    ensures NoNewPartition(m.c, Resumed(m).c)
  {
  }

  lemma FinishAddsNone(m: Machine, max: int)
    requires Inv(m)
    ensures NoNewPartition(m.c, Do(m, Finish, max).c)
  {
    if m.phase == Handling(KafkaException) {
      RetryFinishState(m, max);
      MergeAddsNone(m.c);
    } else {
      PlainFinishAddsNone(m, max);
    }
  }

  lemma MergeAddsNone(c: Coordinator)
    ensures NoNewPartition(c, c.(pending := c.pending + c.inFlight, inFlight := map[]))
  {
  }

  lemma PlainFinishAddsNone(m: Machine, max: int)
    requires m.phase != Handling(KafkaException)
    ensures NoNewPartition(m.c, Do(m, Finish, max).c)
  {
  }

  lemma StepFits(m: Machine, a: Action, max: int)
    requires Inv(m) && Fits(m.c, max)
    ensures Fits(Do(m, a, max).c, max)
  {
    match a {
      case Enqueue(xs) =>
        EnqueueFits(m.c, m.batch, m.phase.Settling?, max, xs);
      case _ =>
        OnlyEnqueueAdds(m, a, max);
        NoNewPartitionsFit(m.c, Do(m, a, max).c, max);
    }
  }

  lemma {:induction false} RunFits(m: Machine, actions: seq<Action>, max: int)
    requires Inv(m) && Fits(m.c, max)
    ensures Fits(Run(m, actions, max).c, max)
    decreases |actions|
  {
    if actions != [] {
      StepKeeps(m, actions[0], max);
      StepFits(m, actions[0], max);
      RunFits(Do(m, actions[0], max), actions[1..], max);
    }
  }

  // ----- whole runs

  lemma EvolvesTransitive(a: Coordinator, b: Coordinator, c: Coordinator)
    requires Evolves(a, b) && Evolves(b, c)
    ensures Evolves(a, c)
  {
  }

  /** From any reachable state, every run keeps the invariant and only ever evolves. */
  lemma {:induction false} RunKeeps(m: Machine, actions: seq<Action>, max: int)
    requires Inv(m)
    ensures Inv(Run(m, actions, max)) && Evolves(m.c, Run(m, actions, max).c)
    decreases |actions|
  {
    if actions != [] {
      var next := Do(m, actions[0], max);
      StepKeeps(m, actions[0], max);
      RunKeeps(next, actions[1..], max);
      EvolvesTransitive(m.c, next.c, Run(m, actions, max).c);
    }
  }

  lemma ReachableInv(actions: seq<Action>, max: nat)
    ensures Inv(Run(START, actions, max))
  {
    RunKeeps(START, actions, max);
  }

  /** In every run a settlement was reported only for a lease inside a broker commit that returned. */
  lemma SettledOnlyAfterCommit(actions: seq<Action>, max: nat, lease: Lease)
    requires lease in Run(START, actions, max).reported
    ensures lease in Run(START, actions, max).committed
  {
    ReachableInv(actions, max);
  }

  /** In every reachable state: settled < in flight < pending, unless the success callback is running. */
  lemma LadderAlwaysHolds(actions: seq<Action>, max: nat)
    ensures var m := Run(START, actions, max);
            Ladder(m.c.pending, m.c.inFlight, m.c.settled, m.phase.Settling?)
  {
    ReachableInv(actions, max);
  }

  /** In every reachable state at most `max` partitions have unsettled candidates. */
  lemma CapacityAlwaysHolds(actions: seq<Action>, max: nat)
    ensures Fits(Run(START, actions, max).c, max)
  {
    assert START.c.pending.Keys + START.c.inFlight.Keys == {};
    RunFits(START, actions, max);
  }

  /** No marker survives to an await point, so being active is just being live. */
  lemma ActiveMeansLive(actions: seq<Action>, max: nat, lease: Lease)
    ensures var c := Run(START, actions, max).c;
            c.cancelled == {} && (IsActive(c, lease) <==> Live(c, lease))
  {
    ReachableInv(actions, max);
  }

  /** An issued lease that is dead at one await point is never active at a later one. */
  lemma DeadLeasesStayDead(before: seq<Action>, after: seq<Action>, max: nat, lease: Lease)
    requires var m := Run(START, before, max);
             lease.id <= m.c.leaseCounter && !IsActive(m.c, lease)
    ensures !IsActive(Run(Run(START, before, max), after, max).c, lease)
  {
    var m := Run(START, before, max);
    ReachableInv(before, max);
    RunKeeps(m, after, max);
    assert !Live(m.c, lease);
    assert !Live(Run(m, after, max).c, lease);
  }

  /** Live leases are distinct: a lease id names at most one live candidate. */
  lemma LiveLeasesAreUnique(actions: seq<Action>, max: nat, a: Lease, b: Lease)
    requires var c := Run(START, actions, max).c; Live(c, a) && Live(c, b) && a.id == b.id
    ensures a == b && 0 < a.id <= Run(START, actions, max).c.leaseCounter
  {
    ReachableInv(actions, max);
  }

  /** The settled offset of a partition never falls over a run. */
  lemma SettledNeverFalls(before: seq<Action>, after: seq<Action>, max: nat, tp: TopicPartition)
    ensures var m := Run(START, before, max);
            SettledIn(m.c.settled, tp) <= SettledIn(Run(m, after, max).c.settled, tp)
  {
    ReachableInv(before, max);
    RunKeeps(Run(START, before, max), after, max);
  }

  lemma SettlesAt(c: Coordinator, batch: Outbox, tp: TopicPartition, c': Coordinator)
    requires Well(c, batch, false) && c' == SettleBatch(c, batch) && tp in batch
    requires IsActive(c, LeaseOf(batch[tp]))
    ensures SettledIn(c.settled, tp) < SettledIn(c'.settled, tp) == batch[tp].offset
  {
    ActiveIsInFlight(c, batch, tp);
    SettledRises(c, batch, c');
  }

  /** Each settlement raises the settled offset, to exactly the committed candidate's. */
  lemma SettlementRaises(m: Machine, tp: TopicPartition, m': Machine)
    requires Inv(m) && m.phase.Returned? && m' == Resumed(m)
    requires tp in m.batch && IsActive(m.c, LeaseOf(m.batch[tp]))
    ensures SettledIn(m.c.settled, tp) < SettledIn(m'.c.settled, tp) == m.batch[tp].offset
  {
    SettlesAt(m.c, m.batch, tp, m'.c);
  }

  // ----- stopped and cancelled partitions

  /** Cancelling a partition kills its leases, pending and in flight. */
  lemma CancelledAreDead(c: Coordinator, tps: set<TopicPartition>, lease: Lease)
    requires lease.tp in tps
    ensures !IsActive(CancelLeases(c, tps), lease)
  {
  }

  // ----- when a pending offset falls

  /** Every pending candidate stays pending or makes way for a further one. */
  ghost predicate Raises(before: Outbox, after: Outbox) {
    forall tp :: tp in before ==> tp in after && before[tp].offset <= after[tp].offset
  }

  lemma {:induction false} EnqueueAllRaises(c: Coordinator, xs: seq<Candidate>, max: int, count: nat)
    requires EnqueueAll(c, xs, max, count).Some?
    ensures Raises(c.pending, EnqueueAll(c, xs, max, count).value.0.pending)
    decreases |xs|
  {
    if xs != [] {
      match EnqueueOne(c, xs[0], max) {
        case Skipped => EnqueueAllRaises(c, xs[1..], max, count);
        case Queued(c', replaced) =>
          assert Raises(c.pending, c'.pending);
          EnqueueAllRaises(c', xs[1..], max, if replaced then count + 1 else count);
      }
    }
  }

  lemma EnqueueRaises(c: Coordinator, xs: seq<Candidate>, max: int)
    ensures Raises(c.pending, CoordinatorState.Enqueue(c, xs, max).0.pending)
  {
    if c.accepting && c.healthy && EnqueueAll(c, xs, max, 0).Some? {
      EnqueueAllRaises(c, xs, max, 0);
    }
  }

  predicate Retries(m: Machine, a: Action) {
    a.Finish? && m.phase == Handling(KafkaException)
  }

  lemma OthersKeepPending(m: Machine, a: Action, max: int, tp: TopicPartition)
    requires !a.Enqueue? && !Retries(m, a)
    ensures tp in m.c.pending && tp in Do(m, a, max).c.pending ==> Do(m, a, max).c.pending[tp] == m.c.pending[tp]
  {
    match a {
      case Stop(tps) => assert Do(m, a, max).c.pending == m.c.pending - tps;
      case Cancel(tps) => assert Do(m, a, max).c.pending == m.c.pending - tps;
      case Resume => ResumeKeepsPending(m, tp);
      case _ =>
    }
  }

  lemma ResumeKeepsPending(m: Machine, tp: TopicPartition)
    ensures tp in Resumed(m).c.pending ==> tp in m.c.pending && Resumed(m).c.pending[tp] == m.c.pending[tp]
  {
  }

  /**
   A pending offset falls exactly when a batch the broker refused goes back to the outbox
   while that partition's candidate is still in flight, over a newer one.
   */
  lemma PendingFallsExactlyOnRetry(m: Machine, a: Action, max: int, tp: TopicPartition)
    requires Inv(m) && tp in m.c.pending && tp in Do(m, a, max).c.pending
    ensures Do(m, a, max).c.pending[tp].offset < m.c.pending[tp].offset <==> Retries(m, a) && tp in m.c.inFlight
  {
    if a.Enqueue? {
      EnqueueRaises(m.c, a.candidates, max);
    } else if Retries(m, a) {
      RetryLowers(m, max, tp);
    } else {
      OthersKeepPending(m, a, max, tp);
    }
  }

  lemma RetryLowers(m: Machine, max: int, tp: TopicPartition)
    requires Inv(m) && Retries(m, Finish) && tp in m.c.pending
    ensures tp in Do(m, Finish, max).c.pending
    ensures Do(m, Finish, max).c.pending[tp].offset < m.c.pending[tp].offset <==> tp in m.c.inFlight
  {
    RetryFinishState(m, max);
  }

  lemma QueuesAlone(c: Coordinator, x: Candidate, max: int)
    requires c.accepting && c.healthy && c.cancelled == {} && Wanted(c, x) && !Crowded(c, x, max) && x.tp !in c.pending
    ensures CoordinatorState.Enqueue(c, [x], max).0 == Queue(c, x)
  {
    assert {} * (Leases(Replace(c, x).pending) + Leases(c.inFlight)) == {};
    assert Prune(Replace(c, x)) == Queue(c, x);
    assert EnqueueAll(Queue(c, x), [], max, 0) == Some((Queue(c, x), 0));
    assert [x][1..] == [];
  }

  function Example(tp: TopicPartition): seq<Action> {
    [Enqueue([Candidate(tp, 5, 1, 0)]), Begin, Filter({}), Enqueue([Candidate(tp, 9, 1, 0)]),
     Raise(KafkaException), Resume]
  }

  /** The example with offset 5 on its way to the broker. */
  function Sending(tp: TopicPartition): Machine {
    var box := map[tp := Candidate(tp, 5, 1, 1)];
    Machine(EMPTY.(inFlight := box, leaseCounter := 1), Checking, box, {tp}, {}, {}, {})
  }

  /** The example after 9 was enqueued and the commit of 5 failed. */
  function Failed(tp: TopicPartition): Machine {
    Sending(tp).(c := Sending(tp).c.(pending := map[tp := Candidate(tp, 9, 1, 2)], leaseCounter := 2),
                 phase := Handling(KafkaException))
  }

  lemma ExampleQueues(tp: TopicPartition)
    ensures Do(START, Example(tp)[0], 2) == START.(c := Queue(EMPTY, Candidate(tp, 5, 1, 0)))
  {
    QueuesAlone(EMPTY, Candidate(tp, 5, 1, 0), 2);
  }

  lemma ExampleBegins(tp: TopicPartition, m: Machine)
    requires m == START.(c := Queue(EMPTY, Candidate(tp, 5, 1, 0)))
    ensures Do(m, Begin, 2) == Sending(tp).(phase := Submitted, tracked := {})
  {
    assert m.c.pending == map[tp := Candidate(tp, 5, 1, 1)];
    assert tp in m.c.pending;
  }

  lemma ExampleFilters(tp: TopicPartition)
    ensures Do(Sending(tp).(phase := Submitted, tracked := {}), Filter({}), 2) == Sending(tp)
  {
    assert Sending(tp).batch.Keys - {} == {tp};
  }

  lemma ExampleSends(tp: TopicPartition)
    ensures Do(Do(Do(START, Example(tp)[0], 2), Example(tp)[1], 2), Example(tp)[2], 2) == Sending(tp)
  {
    ExampleQueues(tp);
    ExampleBegins(tp, Do(START, Example(tp)[0], 2));
    ExampleFilters(tp);
  }

  lemma ExampleFails(tp: TopicPartition)
    ensures Do(Do(Do(Sending(tp), Example(tp)[3], 2), Example(tp)[4], 2), Example(tp)[5], 2) == Failed(tp)
  {
    QueuesAlone(Sending(tp).c, Candidate(tp, 9, 1, 0), 2);
  }

  lemma ExampleRun(tp: TopicPartition)
    ensures Run(START, Example(tp), 2) == Failed(tp)
  {
    var e := Example(tp);
    ExampleSends(tp);
    ExampleFails(tp);
    ThreeSteps(START, e, 0);
    ThreeSteps(Sending(tp), e, 3);
    assert e[0..] == e && e[6..] == [];
  }

  lemma OneStep(m: Machine, actions: seq<Action>, i: nat)
    requires i < |actions|
    ensures Run(m, actions[i..], 2) == Run(Do(m, actions[i], 2), actions[i + 1..], 2)
  {
    assert actions[i..][1..] == actions[i + 1..];
  }

  lemma ThreeSteps(m: Machine, actions: seq<Action>, i: nat)
    requires i + 3 <= |actions|
    ensures Run(m, actions[i..], 2) ==
            Run(Do(Do(Do(m, actions[i], 2), actions[i + 1], 2), actions[i + 2], 2), actions[i + 3..], 2)
  {
    OneStep(m, actions, i);
    OneStep(Do(m, actions[i], 2), actions, i + 1);
    OneStep(Do(Do(m, actions[i], 2), actions[i + 1], 2), actions, i + 2);
  }

  lemma RetriedIsPending(m: Machine, max: int, tp: TopicPartition)
    requires Inv(m) && m.phase == Handling(KafkaException) && tp in m.c.inFlight
    ensures tp in Do(m, Finish, max).c.pending && Do(m, Finish, max).c.pending[tp] == m.c.inFlight[tp]
  {
    RetryState(m.c, m.batch);
  }

  /** It happens: offset 9 is pending, the commit of 5 fails, and 5 is pending again. */
  lemma PendingFallsInARun(tp: TopicPartition)
    ensures var m := Run(START, Example(tp), 2);
            var m' := Do(m, Finish, 2);
            && tp in m.c.pending && m.c.pending[tp].offset == 9
            && tp in m'.c.pending && m'.c.pending[tp].offset == 5
  {
    ExampleRun(tp);
    ReachableInv(Example(tp), 2);
    RetriedIsPending(Failed(tp), 2, tp);
  }

  /** The worker's sections neither issue leases nor stop or start partitions. */
  ghost predicate SameBooks(c: Coordinator, c': Coordinator) {
    c'.leaseCounter == c.leaseCounter && c'.stopped == c.stopped
  }

  lemma ResumeKeepsBooks(m: Machine)
    ensures SameBooks(m.c, Resumed(m).c)
  {
  }

  lemma WorkerKeepsBooks(m: Machine, a: Action, max: int)
    requires !Outside(a)
    ensures SameBooks(m.c, Do(m, a, max).c)
  {
    match a {
      case Resume => ResumeKeepsBooks(m);
      case _ =>
    }
  }

  /** Only enqueue issues leases, and only start lifts a stop. */
  lemma OtherActionsKeepBooks(m: Machine, a: Action, max: int, tp: TopicPartition)
    requires !a.Enqueue? && tp in m.c.stopped && !(a.Start? && tp in a.tps)
    ensures Do(m, a, max).c.leaseCounter == m.c.leaseCounter && tp in Do(m, a, max).c.stopped
  {
    if !Outside(a) {
      WorkerKeepsBooks(m, a, max);
    }
  }

  lemma StoppedStep(m: Machine, a: Action, max: int, tp: TopicPartition)
    requires Inv(m) && tp in m.c.stopped && !(a.Start? && tp in a.tps)
    ensures tp in Do(m, a, max).c.stopped
    ensures forall l: Lease :: l.tp == tp && Live(Do(m, a, max).c, l) ==> Live(m.c, l)
  {
    match a {
      case Enqueue(xs) => EnqueueGrows(m.c, m.batch, m.phase.Settling?, max, xs);
      case _ =>
        OtherActionsKeepBooks(m, a, max, tp);
        StepKeeps(m, a, max);
        IssuedAreBounded(Do(m, a, max));
    }
  }

  lemma IssuedAreBounded(m: Machine)
    requires Inv(m)
    ensures forall l :: Live(m.c, l) ==> l.id <= m.c.leaseCounter
  {
  }

  /**
   From the moment a partition is stopped until it is started again, no run gives it a
   new live lease: what is live then was live when it was stopped.
   */
  lemma {:induction false} StoppedTakesNothingNew(m: Machine, actions: seq<Action>, max: int, tp: TopicPartition)
    requires Inv(m) && tp in m.c.stopped
    requires forall i :: 0 <= i < |actions| && actions[i].Start? ==> tp !in actions[i].tps
    ensures forall l: Lease :: l.tp == tp && Live(Run(m, actions, max).c, l) ==> Live(m.c, l)
    decreases |actions|
  {
    if actions != [] {
      StepKeeps(m, actions[0], max);
      StoppedStep(m, actions[0], max, tp);
      StoppedTakesNothingNew(Do(m, actions[0], max), actions[1..], max, tp);
    }
  }
}
