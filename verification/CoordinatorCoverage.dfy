/**
 What the coordinator does not lose: where every pending and in-flight candidate goes at each
 step, how long an accepted candidate stays covered, and what closes the outbox.
 */
module CoordinatorCoverage {
  import opened Common
  import opened CoordinatorState
  import opened CoordinatorRuns

  // ----- where candidates go

  /** The action cancels the partition: by name, as stale, or with a batch refused on the broker thread. */
  predicate Kills(m: Machine, a: Action, tp: TopicPartition) {
    || (a.Cancel? && tp in a.tps)
    || (a.Filter? && Enabled(m, a) && tp in a.stale)
    || (a.Resume? && m.phase.Refused? && tp in m.tracked)
  }

  predicate Withdraws(m: Machine, a: Action, tp: TopicPartition) {
    Kills(m, a, tp) || (a.Stop? && tp in a.tps)
  }

  /** Where the pending candidate of `tp` is after the action. */
  ghost predicate PendingGoes(m: Machine, a: Action, tp: TopicPartition, m': Machine)
    requires tp in m.c.pending
  {
    var x := m.c.pending[tp];
    if Withdraws(m, a, tp) then tp !in m'.c.pending
    else if a.Begin? && Enabled(m, a) then
      tp !in m'.c.pending && tp in m'.c.inFlight && m'.c.inFlight[tp] == x && tp in m'.batch && m'.batch[tp] == x
    else if Retries(m, a) && tp in m.c.inFlight then tp in m'.c.pending && m'.c.pending[tp] == m.c.inFlight[tp]
    else tp in m'.c.pending && (m'.c.pending[tp] == x || (a.Enqueue? && m'.c.pending[tp].offset > x.offset))
  }

  /** Where the in-flight candidate of `tp` is after the action. */
  ghost predicate InFlightGoes(m: Machine, a: Action, tp: TopicPartition, m': Machine)
    requires tp in m.c.inFlight
  {
    var x := m.c.inFlight[tp];
    if Kills(m, a, tp) then tp !in m'.c.inFlight
    else if a.Finish? && Enabled(m, a) then
      && tp !in m'.c.inFlight
      && (Retries(m, a) ==> tp in m'.c.pending && m'.c.pending[tp] == x)
      && (m.phase.Settling? ==> SettledIn(m'.c.settled, tp) == x.offset)
    else tp in m'.c.inFlight && m'.c.inFlight[tp] == x
  }

  ghost predicate RaisesStrictly(before: Outbox, after: Outbox) {
    forall tp :: tp in before ==>
      tp in after && (after[tp] == before[tp] || before[tp].offset < after[tp].offset)
  }

  lemma {:induction false} EnqueueAllKeepsOrRaises(c: Coordinator, xs: seq<Candidate>, max: int, count: nat)
    requires EnqueueAll(c, xs, max, count).Some?
    ensures RaisesStrictly(c.pending, EnqueueAll(c, xs, max, count).value.0.pending)
    ensures EnqueueAll(c, xs, max, count).value.0.inFlight == c.inFlight
    decreases |xs|
  {
    if xs != [] {
      match EnqueueOne(c, xs[0], max) {
        case Skipped => EnqueueAllKeepsOrRaises(c, xs[1..], max, count);
        case Queued(c', replaced) =>
          assert RaisesStrictly(c.pending, c'.pending);
          EnqueueAllKeepsOrRaises(c', xs[1..], max, if replaced then count + 1 else count);
      }
    }
  }

  lemma EnqueueKeepsOrRaises(c: Coordinator, xs: seq<Candidate>, max: int)
    ensures RaisesStrictly(c.pending, CoordinatorState.Enqueue(c, xs, max).0.pending)
    ensures CoordinatorState.Enqueue(c, xs, max).0.inFlight == c.inFlight
  {
    if c.accepting && c.healthy && EnqueueAll(c, xs, max, 0).Some? {
      EnqueueAllKeepsOrRaises(c, xs, max, 0);
    }
  }

  lemma ResumeMoves(m: Machine, tp: TopicPartition)
    ensures tp in m.c.pending ==>
              if m.phase.Refused? && tp in m.tracked then tp !in Resumed(m).c.pending
              else tp in Resumed(m).c.pending && Resumed(m).c.pending[tp] == m.c.pending[tp]
    ensures tp in m.c.inFlight ==>
              if m.phase.Refused? && tp in m.tracked then tp !in Resumed(m).c.inFlight
              else tp in Resumed(m).c.inFlight && Resumed(m).c.inFlight[tp] == m.c.inFlight[tp]
  {
  }

  lemma PlainFinishKeepsPending(m: Machine, max: int)
    requires !Retries(m, Finish)
    ensures Do(m, Finish, max).c.pending == m.c.pending
  {
  }

  lemma FinishMovesPending(m: Machine, max: int, tp: TopicPartition)
    requires Inv(m) && tp in m.c.pending
    ensures PendingGoes(m, Finish, tp, Do(m, Finish, max))
  {
    if Retries(m, Finish) {
      RetryFinishState(m, max);
    } else {
      PlainFinishKeepsPending(m, max);
    }
  }

  lemma OutsideMovesPending(m: Machine, a: Action, max: int, tp: TopicPartition)
    requires Outside(a) && tp in m.c.pending
    ensures PendingGoes(m, a, tp, Do(m, a, max))
  {
    match a {
      case Enqueue(xs) => EnqueueKeepsOrRaises(m.c, xs, max);
      case Stop(tps) => assert Do(m, a, max).c.pending == m.c.pending - tps;
      case Cancel(tps) => assert Do(m, a, max).c.pending == m.c.pending - tps;
      case _ =>
    }
  }

  /**
   A pending candidate leaves the outbox only by moving in flight with the next batch, by making
   way for a further offset of its partition, by a stop or cancel of its partition, or when a
   refused batch puts that partition's in-flight candidate back.
   */
  lemma PendingLeavesOnly(m: Machine, a: Action, max: int, tp: TopicPartition)
    requires Inv(m) && tp in m.c.pending
    ensures PendingGoes(m, a, tp, Do(m, a, max))
  {
    if Outside(a) {
      OutsideMovesPending(m, a, max, tp);
    } else if a.Finish? {
      FinishMovesPending(m, max, tp);
    } else {
      WorkerMovesPending(m, a, max, tp);
    }
  }

  lemma WorkerMovesPending(m: Machine, a: Action, max: int, tp: TopicPartition)
    requires !Outside(a) && !a.Finish? && tp in m.c.pending
    ensures PendingGoes(m, a, tp, Do(m, a, max))
  {
    match a {
      case Resume => ResumeMoves(m, tp);
      case Filter(stale) => assert CancelLeases(m.c, stale).pending == m.c.pending - stale;
      case _ =>
    }
  }

  lemma FinishClears(m: Machine, max: int)
    requires Enabled(m, Finish)
    ensures Do(m, Finish, max).c.inFlight == map[] && Do(m, Finish, max).c.settled == m.c.settled
  {
  }

  lemma FinishMovesInFlight(m: Machine, max: int, tp: TopicPartition)
    requires Inv(m) && tp in m.c.inFlight
    ensures InFlightGoes(m, Finish, tp, Do(m, Finish, max))
  {
    if Enabled(m, Finish) {
      FinishClears(m, max);
    }
    if Retries(m, Finish) {
      RetryFinishState(m, max);
    }
  }

  lemma OutsideMovesInFlight(m: Machine, a: Action, max: int, tp: TopicPartition)
    requires Outside(a) && tp in m.c.inFlight
    ensures InFlightGoes(m, a, tp, Do(m, a, max))
  {
    match a {
      case Enqueue(xs) => EnqueueKeepsOrRaises(m.c, xs, max);
      case Stop(tps) => StopShrinks(m.c, tps);
      case Cancel(tps) => assert Do(m, a, max).c.inFlight == m.c.inFlight - tps;
      case _ =>
    }
  }

  /**
   An in-flight candidate leaves only by a cancel of its partition or when its batch ends: back to
   the outbox after a broker exception, settled at its offset after a commit that returned.
   */
  lemma InFlightLeavesOnly(m: Machine, a: Action, max: int, tp: TopicPartition)
    requires Inv(m) && tp in m.c.inFlight
    ensures InFlightGoes(m, a, tp, Do(m, a, max))
  {
    if Outside(a) {
      OutsideMovesInFlight(m, a, max, tp);
    } else if a.Finish? {
      FinishMovesInFlight(m, max, tp);
    } else {
      assert a.Begin? ==> !Enabled(m, a);
      WorkerMovesInFlight(m, a, max, tp);
    }
  }

  lemma WorkerMovesInFlight(m: Machine, a: Action, max: int, tp: TopicPartition)
    requires !Outside(a) && !a.Finish? && tp in m.c.inFlight && !(a.Begin? && Enabled(m, a))
    ensures InFlightGoes(m, a, tp, Do(m, a, max))
  {
    match a {
      case Resume => ResumeMoves(m, tp);
      case Filter(stale) => assert CancelLeases(m.c, stale).inFlight == m.c.inFlight - stale;
      case _ =>
    }
  }

  // ----- accepted candidates stay covered

  /** What may end the coverage of a partition: a stop or cancel, a dropped batch, a retry over a newer candidate. */
  predicate Uncovers(m: Machine, a: Action, tp: TopicPartition) {
    || Withdraws(m, a, tp)
    || (a.Finish? && m.phase.Handling? && !Retries(m, a) && tp in m.c.inFlight)
    || (Retries(m, a) && tp in m.c.inFlight && tp in m.c.pending)
  }

  lemma CoverLasts(m: Machine, a: Action, max: int, x: Candidate)
    requires Inv(m) && Covers(m.c, x) && !Uncovers(m, a, x.tp)
    ensures Covers(Do(m, a, max).c, x)
  {
    StepKeeps(m, a, max);
    if x.tp in m.c.pending {
      PendingLeavesOnly(m, a, max, x.tp);
    }
    if x.tp in m.c.inFlight {
      InFlightLeavesOnly(m, a, max, x.tp);
    }
  }

  ghost predicate Undisturbed(m: Machine, actions: seq<Action>, max: int, tp: TopicPartition)
    decreases |actions|
  {
    actions == [] || (!Uncovers(m, actions[0], tp) && Undisturbed(Do(m, actions[0], max), actions[1..], max, tp))
  }

  lemma {:induction false} CoverLastsOverRun(m: Machine, actions: seq<Action>, max: int, x: Candidate)
    requires Inv(m) && Covers(m.c, x) && Undisturbed(m, actions, max, x.tp)
    ensures Covers(Run(m, actions, max).c, x)
    decreases |actions|
  {
    if actions != [] {
      StepKeeps(m, actions[0], max);
      CoverLasts(m, actions[0], max, x);
      CoverLastsOverRun(Do(m, actions[0], max), actions[1..], max, x);
    }
  }

  /**
   Over every run after an accepted enqueue, as long as its partition is not stopped or cancelled,
   its batch not dropped and not retried over a newer candidate: the offset is settled, in flight
   or pending, or a further one is.
   */
  lemma AcceptedIsNotForgotten(m: Machine, xs: seq<Candidate>, actions: seq<Action>, max: int, x: Candidate)
    requires Inv(m) && CoordinatorState.Enqueue(m.c, xs, max).1 && x in xs && x.tp !in m.c.stopped
    requires Undisturbed(Do(m, Enqueue(xs), max), actions, max, x.tp)
    ensures Covers(Run(Do(m, Enqueue(xs), max), actions, max).c, x)
  {
    AcceptedEnqueueCovers(m.c, xs, max, x);
    StepKeeps(m, Enqueue(xs), max);
    CoverLastsOverRun(Do(m, Enqueue(xs), max), actions, max, x);
  }

  // ----- stops and starts

  /** A stop takes the partitions' pending candidates away and marks them stopped; nothing else moves. */
  lemma StopTakesEffect(m: Machine, tps: set<TopicPartition>, max: int, tp: TopicPartition)
    ensures var c := Do(m, Stop(tps), max).c;
            && (tp in c.stopped <==> tp in tps || tp in m.c.stopped)
            && (tp in c.pending <==> tp in m.c.pending && tp !in tps)
            && (tp in c.pending ==> c.pending[tp] == m.c.pending[tp])
            && c.inFlight == m.c.inFlight && c.settled == m.c.settled
  {
  }

  lemma StartTakesEffect(m: Machine, tps: set<TopicPartition>, max: int, tp: TopicPartition)
    ensures var c := Do(m, Start(tps), max).c;
            && (tp in c.stopped <==> tp in m.c.stopped && tp !in tps)
            && c.pending == m.c.pending && c.inFlight == m.c.inFlight && c.settled == m.c.settled
  {
  }

  /** From a stop until the next start, in every run: nothing but what was in flight at the stop is live. */
  lemma StoppedPartitionRunsDry(m: Machine, tps: set<TopicPartition>, actions: seq<Action>, max: int, tp: TopicPartition)
    requires Inv(m) && tp in tps
    requires forall i :: 0 <= i < |actions| && actions[i].Start? ==> tp !in actions[i].tps
    ensures forall l: Lease :: l.tp == tp && Live(Run(Do(m, Stop(tps), max), actions, max).c, l) ==> Names(m.c.inFlight, l)
  {
    var stopped := Do(m, Stop(tps), max);
    StepKeeps(m, Stop(tps), max);
    StopTakesEffect(m, tps, max, tp);
    StoppedTakesNothingNew(stopped, actions, max, tp);
  }

  // ----- closing

  /** The outbox takes nothing: accepting has stopped, or the worker has crashed. */
  predicate Closed(c: Coordinator) {
    !c.accepting || !c.healthy
  }

  lemma {:induction false} EnqueueAllKeepsFlags(c: Coordinator, xs: seq<Candidate>, max: int, count: nat)
    requires EnqueueAll(c, xs, max, count).Some?
    ensures var c' := EnqueueAll(c, xs, max, count).value.0; c'.accepting == c.accepting && c'.healthy == c.healthy
    decreases |xs|
  {
    if xs != [] {
      match EnqueueOne(c, xs[0], max) {
        case Skipped => EnqueueAllKeepsFlags(c, xs[1..], max, count);
        case Queued(c', replaced) => EnqueueAllKeepsFlags(c', xs[1..], max, if replaced then count + 1 else count);
      }
    }
  }

  /** No action opens a closed outbox or heals a crashed worker, and a closed one issues no lease. */
  ghost predicate ClosesOnly(c: Coordinator, c': Coordinator) {
    && (c'.accepting ==> c.accepting) && (c'.healthy ==> c.healthy)
    && (Closed(c) ==> c'.leaseCounter == c.leaseCounter)
  }

  lemma ResumeClosesOnly(m: Machine)
    ensures ClosesOnly(m.c, Resumed(m).c)
  {
  }

  lemma StepClosesOnly(m: Machine, a: Action, max: int)
    ensures ClosesOnly(m.c, Do(m, a, max).c)
  {
    match a {
      case Enqueue(xs) =>
        if m.c.accepting && m.c.healthy && EnqueueAll(m.c, xs, max, 0).Some? {
          EnqueueAllKeepsFlags(m.c, xs, max, 0);
        }
      case Resume => ResumeClosesOnly(m);
      case _ =>
    }
  }

  /** Once closed, always closed: no later run issues another lease. */
  lemma {:induction false} ClosedStaysClosed(m: Machine, actions: seq<Action>, max: int)
    requires Closed(m.c)
    ensures var c := Run(m, actions, max).c; Closed(c) && c.leaseCounter == m.c.leaseCounter
    decreases |actions|
  {
    if actions != [] {
      StepClosesOnly(m, actions[0], max);
      ClosedStaysClosed(Do(m, actions[0], max), actions[1..], max);
    }
  }

  /** A crash of the worker or of a callback closes the outbox, and a crashed worker begins no batch. */
  lemma CrashCloses(m: Machine, max: int)
    ensures m.phase == Raised(WorkerCrash) ==> !Do(m, Resume, max).c.accepting && !Do(m, Resume, max).c.healthy
    ensures m.phase.Handling? || m.phase.Settling? ==>
              !Do(m, CallbackCrash, max).c.accepting && !Do(m, CallbackCrash, max).c.healthy
    ensures !Do(m, StopAccepting, max).c.accepting
    ensures !m.c.healthy ==> Do(m, Begin, max) == m
  {
  }

  // ----- room

  lemma {:induction false} RoomForAll(c: Coordinator, xs: seq<Candidate>, max: int, count: nat)
    requires |c.pending| + |c.inFlight| + |xs| <= max
    ensures EnqueueAll(c, xs, max, count).Some?
    decreases |xs|
  {
    if xs != [] {
      match EnqueueOne(c, xs[0], max) {
        case Skipped => RoomForAll(c, xs[1..], max, count);
        case Queued(c', replaced) =>
          OneMorePlace(c.pending, xs[0].tp, c'.pending[xs[0].tp]);
          RoomForAll(c', xs[1..], max, if replaced then count + 1 else count);
        case Full =>
          assert false;
      }
    }
  }

  lemma OneMorePlace(box: Outbox, tp: TopicPartition, x: Candidate)
    ensures |box[tp := x]| <= |box| + 1
  {
    assert box[tp := x].Keys == box.Keys + {tp};
  }

  /** With room for all of them an open outbox accepts; a refusal of an open one is counted once. */
  lemma RoomMeansAccepted(c: Coordinator, xs: seq<Candidate>, max: int)
    requires c.accepting && c.healthy
    ensures |c.pending| + |c.inFlight| + |xs| <= max ==> CoordinatorState.Enqueue(c, xs, max).1
    ensures !CoordinatorState.Enqueue(c, xs, max).1 ==> CoordinatorState.Enqueue(c, xs, max).0.failures == c.failures + 1
  {
    if |c.pending| + |c.inFlight| + |xs| <= max {
      RoomForAll(c, xs, max, 0);
    }
  }

  // ----- revalidation on the broker thread

  /** A lease passes its check exactly when it is active at that moment; one failure refuses the batch. */
  lemma CheckVerifies(m: Machine, tp: TopicPartition, max: int)
    requires Inv(m) && m.phase.Checking? && tp in m.tracked - m.checked && tp in m.batch
    ensures var m' := Do(m, Check(tp), max);
            if tp in m.c.inFlight then m'.phase.Checking? && m'.checked == m.checked + {tp}
            else m'.phase.Refused? && m'.checked == m.checked
  {
    ActiveIsInFlight(m.c, m.batch, tp);
  }

  /** A broker commit happens only after every lease of the filtered batch passed, and covers exactly those. */
  lemma CommitNeedsEveryCheck(m: Machine, a: Action, max: int)
    requires Do(m, a, max).committed != m.committed
    ensures a.BrokerCommit? && m.phase.Checking? && m.checked == m.tracked
    ensures Do(m, a, max).committed == m.committed + Leases(Within(m.batch, m.tracked))
  {
  }

  /** A refused batch is dead: none of its tracked leases is active afterwards. */
  lemma RefusedBatchIsDead(m: Machine, max: int, lease: Lease)
    requires m.phase.Refused? && lease.tp in m.tracked
    ensures !IsActive(Do(m, Resume, max).c, lease)
  {
    CancelledAreDead(m.c, m.tracked, lease);
  }
}
