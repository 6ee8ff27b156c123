/**
 The bridge between the Kafka callback thread and the event loop. The callback waits
 for the loop to run one synchronous mutation; on a timeout it either cancels the
 mutation before it starts or waits for it to end. The two threads share two flags.
 */
module RebalanceBridge {

  /** The lock-protected flags; each method is one critical section. */
  class BridgeCallState {
    var started: bool
    var cancelled: bool

    constructor ()
      ensures !started && !cancelled
    {
      started, cancelled := false, false;
    }

    method MarkStarted() returns (ok: bool)
      requires !(started && cancelled)
      modifies this
      ensures ok <==> !old(cancelled)
      ensures started == (old(started) || ok) && cancelled == old(cancelled) && !(started && cancelled)
    {
      if cancelled {
        return false;
      }
      started := true;
      return true;
    }

    method CancelIfNotStarted() returns (ok: bool)
      requires !(started && cancelled)
      modifies this
      ensures ok <==> !old(started)
      ensures cancelled == (old(cancelled) || ok) && started == old(started) && !(started && cancelled)
    {
      if started {
        return false;
      }
      cancelled := true;
      return true;
    }
  }

  /** The coroutine on the event loop. */
  datatype LoopAt = AwaitingLock | HoldingLock | Mutating | LoopDone

  datatype Future = Pending | Result | Exception(isTimeout: bool) | Cancelled

  /** The callback thread. */
  datatype CallerAt =
    | AwaitingResult
    | TimedOut                        // a TimeoutError was caught
    | Draining                        // the mutation had started: wait for it without limit
    | Failing                         // another exception, or cancelled in time
    | Reported(success: bool)

  datatype Bridge = Bridge(
    started: bool, cancelled: bool,
    loop: LoopAt, future: Future, caller: CallerAt,
    runs: nat,                        // how often the mutation ran
    raised: bool)                     // the mutation itself raised

  const START := Bridge(false, false, AwaitingLock, Pending, AwaitingResult, 0, false)

  datatype Action =
    | Acquire
    | MarkStarted
    | Mutate(ok: bool, isTimeout: bool)
    | CancelTask                      // the task is cancelled while it awaits the lock
    | GetResult
    | Timeout
    | TryCancel
    | Drain
    | GiveUp

  function Do(b: Bridge, a: Action): Bridge {
    match a
    case Acquire => if b.loop.AwaitingLock? then b.(loop := HoldingLock) else b
    case MarkStarted =>
      if !b.loop.HoldingLock? then b
      else if b.cancelled then b.(loop := LoopDone, future := Cancelled)
      else b.(started := true, loop := Mutating)
    case Mutate(ok, isTimeout) =>
      if !b.loop.Mutating? then b
      else b.(loop := LoopDone, runs := b.runs + 1, raised := !ok,
              future := if ok then Result else Exception(isTimeout))
    case CancelTask => if b.loop.AwaitingLock? then b.(loop := LoopDone, future := Cancelled) else b
    case GetResult =>
      if !b.caller.AwaitingResult? then b
      else (match b.future
            case Pending => b
            case Result => b.(caller := Reported(true))
            case Exception(isTimeout) => b.(caller := if isTimeout then TimedOut else Failing)
            case Cancelled => b.(caller := Failing))
    case Timeout => if b.caller.AwaitingResult? then b.(caller := TimedOut) else b
    case TryCancel =>
      if !b.caller.TimedOut? then b
      else if b.started then b.(caller := Draining)
      else b.(cancelled := true, caller := Failing)
    case Drain =>
      if !b.caller.Draining? || b.future.Pending? then b
      else b.(caller := Reported(b.future.Result?))
    case GiveUp =>
      if !b.caller.Failing? then b
      else b.(cancelled := b.cancelled || !b.started, caller := Reported(false))
  }

  function Run(b: Bridge, actions: seq<Action>): Bridge
    decreases |actions|
  {
    if actions == [] then b else Run(Do(b, actions[0]), actions[1..])
  }

  ghost predicate Inv(b: Bridge) {
    && !(b.started && b.cancelled)
    && (match b.loop
        case AwaitingLock => !b.started && b.future.Pending? && b.runs == 0 && !b.raised
        case HoldingLock => !b.started && b.future.Pending? && b.runs == 0 && !b.raised
        case Mutating => b.started && b.future.Pending? && b.runs == 0 && !b.raised
        case LoopDone =>
          && !b.future.Pending?
          && (b.future.Cancelled? <==> !b.started)
          && b.runs == (if b.started then 1 else 0)
          && (b.raised <==> b.future.Exception?))
    && (match b.caller
        case AwaitingResult => true
        case TimedOut => true
        case Draining => b.started
        case Failing => b.raised || (!b.started && (b.cancelled || b.future.Cancelled?))
        case Reported(success) => if success then b.future.Result? else b.raised || b.cancelled)
  }

  lemma StepKeeps(b: Bridge, a: Action)
    requires Inv(b)
    ensures Inv(Do(b, a))
  {
  }

  lemma {:induction false} RunKeeps(b: Bridge, actions: seq<Action>)
    requires Inv(b)
    ensures Inv(Run(b, actions))
    ensures b.cancelled ==> Run(b, actions).cancelled
    decreases |actions|
  {
    if actions != [] {
      StepKeeps(b, actions[0]);
      RunKeeps(Do(b, actions[0]), actions[1..]);
    }
  }

  lemma {:induction false} RunConcat(b: Bridge, p: seq<Action>, q: seq<Action>)
    ensures Run(b, p + q) == Run(Run(b, p), q)
    decreases |p|
  {
    if p == [] {
      assert p + q == q;
    } else {
      assert (p + q)[1..] == p[1..] + q;
      RunConcat(Do(b, p[0]), p[1..], q);
    }
  }

  /** Over every interleaving: a bridge that reports success ran its mutation exactly once, to the end. */
  lemma SuccessMeansRanOnce(actions: seq<Action>)
    requires Run(START, actions).caller == Reported(true)
    ensures Run(START, actions).runs == 1 && !Run(START, actions).raised
  {
    RunKeeps(START, actions);
  }

  /**
   A bridge that reports failure, when the mutation did not itself raise, has not run the
   mutation and never will, whatever either thread still does.
   */
  lemma FailureMeansNeverRuns(actions: seq<Action>, later: seq<Action>)
    requires Run(START, actions).caller == Reported(false) && !Run(START, actions).raised
    ensures Run(START, actions + later).runs == 0
  {
    RunKeeps(START, actions);
    RunKeeps(Run(START, actions), later);
    RunConcat(START, actions, later);
  }

  /** No interleaving runs the mutation twice. */
  lemma NeverRunsTwice(actions: seq<Action>)
    ensures Run(START, actions).runs <= 1
  {
    RunKeeps(START, actions);
  }

  /**
   A timeout is always answered. While the mutation has not started it is cancelled for good and
   failure is reported; once it has started the callback waits and reports how it ended.
   */
  lemma TimeoutIsAnswered(b: Bridge, ok: bool, isTimeout: bool)
    requires Inv(b) && b.caller.AwaitingResult?
    ensures !b.started ==>
              var end := Do(Do(Do(b, Timeout), TryCancel), GiveUp);
              end.caller == Reported(false) && end.cancelled && end.runs == 0
    ensures b.loop.Mutating? ==>
              var end := Do(Do(Do(Do(b, Timeout), TryCancel), Mutate(ok, isTimeout)), Drain);
              end.caller == Reported(ok) && end.runs == 1 && end.raised == !ok
  {
  }

  /** Without a timeout the callback reports what the mutation did; a cancelled loop step never mutates. */
  lemma ResultIsReported(b: Bridge, ok: bool)
    requires Inv(b) && b.caller.AwaitingResult?
    ensures b.loop.HoldingLock? && !b.cancelled ==>
              var end := Do(Do(Do(b, MarkStarted), Mutate(ok, false)), GetResult);
              end.runs == 1 && (ok ==> end.caller == Reported(true)) && (!ok ==> Do(end, GiveUp).caller == Reported(false))
    ensures b.loop.HoldingLock? && b.cancelled ==> Do(Do(b, MarkStarted), Mutate(ok, false)).runs == 0
  {
  }
}
