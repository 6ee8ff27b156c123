/**
 Whole runs of completion processing: batches of events with their dead-letter retries,
 fetches, commits and rebalances, in any order. Batches run under the control lock, so
 nothing else moves a tracker meanwhile.
 */
module CompletionRuns {
  import opened Common
  import opened TrackerState
  import opened CompletionEvents
  import opened Completion
  import opened Handoff
  import AtLeastOnce

  /** The trackers and the ledger of events whose dead-letter publish failed. */
  datatype Books = Books(trackers: TrackerMap, ledger: Ledger)

  datatype Op =
    | Processed(events: seq<Event>, outcomes: nat -> bool, now: real)
    | Fetched(tp: TopicPartition, offset: int)
    | Committed(plan: AtLeastOnce.Plan)
    | CommitFailed(retained: set<TopicPartition>)    // the broker raised or the batch was aborted
    | Revoked(tps: set<TopicPartition>)
    | Assigned(tp: TopicPartition, stored: Option<Stored>, start: int, metadata: string)

  datatype Settings = Settings(dlq: DlqPolicy, rebalance: Policy)

  /** The ledger without the events of revoked partitions. */
  function Remaining(ledger: Ledger, tps: set<TopicPartition>): Ledger {
    if ledger == [] then []
    else if ledger[0].tp in tps then Remaining(ledger[1..], tps)
    else [ledger[0]] + Remaining(ledger[1..], tps)
  }

  function Do(cfg: Settings, s: Books, op: Op): Books {
    match op
    case Processed(events, outcomes, _) =>
      var b := ProcessBatch(cfg.dlq, s.trackers, s.ledger, events, outcomes);
      Books(b.trackers, b.ledger)
    case Fetched(tp, o) =>
      if tp in s.trackers then s.(trackers := s.trackers[tp := UpdateFetched(s.trackers[tp], o)]) else s
    case Committed(plan) => s.(trackers := AtLeastOnce.Advance(s.trackers, plan))
    case CommitFailed(_) => s
    case Revoked(tps) => Books(s.trackers - tps, Remaining(s.ledger, tps))
    case Assigned(tp, stored, start, metadata) =>
      s.(trackers := s.trackers[tp := Rebuild(cfg.rebalance, stored, start, metadata)])
  }

  function Run(cfg: Settings, s: Books, ops: seq<Op>): Books
    decreases |ops|
  {
    if ops == [] then s else Run(cfg, Do(cfg, s, ops[0]), ops[1..])
  }

  predicate Rebalances(op: Op, tp: TopicPartition) {
    (op.Revoked? && tp in op.tps) || (op.Assigned? && op.tp == tp)
  }

  // ----- the ledger holds one current event per key

  /** Every event of the ledger is of a tracked partition, in the one epoch there is. */
  ghost predicate AllCurrent(ledger: Ledger, trackers: TrackerMap) {
    forall e :: e in ledger ==> e.tp in trackers && e.epoch == 1
  }

  ghost predicate FirstEpoch(trackers: TrackerMap) {
    forall tp :: tp in trackers ==> trackers[tp].epoch == 1
  }

  ghost predicate Sound(s: Books) {
    DistinctKeys(s.ledger) && FirstEpoch(s.trackers) && AllCurrent(s.ledger, s.trackers)
  }

  lemma OneSound(policy: DlqPolicy, b: Batch, x: Entry)
    requires Sound(Books(b.trackers, b.ledger))
    ensures var next := ProcessOne(policy, b, x); Sound(Books(next.trackers, next.ledger))
  {
    var e := x.event;
    DropKeepsDistinct(b.ledger, KeyOf(e));
    PutKeepsDistinct(b.ledger, e);
    forall y ensures (y in Drop(b.ledger, KeyOf(e)) ==> y in b.ledger) && (y in Put(b.ledger, e) ==> y in b.ledger || y == e) {
      InDrop(b.ledger, KeyOf(e), y);
      InPut(b.ledger, e, y);
    }
    OneGoesOnward(policy, b, x);
  }

  lemma {:induction false} AllSound(policy: DlqPolicy, b: Batch, xs: seq<Entry>)
    requires Sound(Books(b.trackers, b.ledger))
    ensures var end := ProcessAll(policy, b, xs); Sound(Books(end.trackers, end.ledger))
    decreases |xs|
  {
    if xs != [] {
      OneSound(policy, b, xs[0]);
      AllSound(policy, ProcessOne(policy, b, xs[0]), xs[1..]);
    }
  }

  lemma {:induction false} RemainingMembers(ledger: Ledger, tps: set<TopicPartition>, e: Event)
    ensures e in Remaining(ledger, tps) <==> e in ledger && e.tp !in tps
  {
    if ledger != [] {
      RemainingMembers(ledger[1..], tps, e);
      assert e in ledger <==> e == ledger[0] || e in ledger[1..];
    }
  }

  lemma HasSome(ledger: Ledger, key: Key)
    ensures Has(ledger, key) <==> exists e :: e in ledger && KeyOf(e) == key
  {
    if e :| e in ledger && KeyOf(e) == key {
      var i :| 0 <= i < |ledger| && ledger[i] == e;
      assert KeyOf(ledger[i]) == key;
    }
    if Has(ledger, key) {
      var i :| 0 <= i < |ledger| && KeyOf(ledger[i]) == key;
      assert ledger[i] in ledger;
    }
  }

  lemma HasRemaining(ledger: Ledger, tps: set<TopicPartition>, key: Key)
    ensures Has(Remaining(ledger, tps), key) <==> Has(ledger, key) && key.0 !in tps
  {
    HasSome(ledger, key);
    HasSome(Remaining(ledger, tps), key);
    forall e ensures e in Remaining(ledger, tps) <==> e in ledger && e.tp !in tps {
      RemainingMembers(ledger, tps, e);
    }
  }

  lemma {:induction false} RemainingKeepsDistinct(ledger: Ledger, tps: set<TopicPartition>)
    requires DistinctKeys(ledger)
    ensures DistinctKeys(Remaining(ledger, tps))
  {
    if ledger != [] {
      var first, rest := ledger[0], ledger[1..];
      assert ledger == [first] + rest;
      DistinctCons(first, rest);
      RemainingKeepsDistinct(rest, tps);
      DistinctCons(first, Remaining(rest, tps));
      HasRemaining(rest, tps, KeyOf(first));
    }
  }

  lemma RevokedSound(s: Books, tps: set<TopicPartition>)
    requires Sound(s)
    ensures Sound(Books(s.trackers - tps, Remaining(s.ledger, tps)))
  {
    RemainingKeepsDistinct(s.ledger, tps);
    forall e | e in Remaining(s.ledger, tps) ensures e.tp in s.trackers - tps && e.epoch == 1 {
      RemainingMembers(s.ledger, tps, e);
    }
  }

  lemma StepSound(cfg: Settings, s: Books, op: Op)
    requires Sound(s)
    ensures Sound(Do(cfg, s, op))
  {
    match op {
      case Processed(events, outcomes, _) =>
        AllSound(cfg.dlq, Batch(s.trackers, s.ledger, {}, []), Entries(s.ledger, events, outcomes));
      case Revoked(tps) => RevokedSound(s, tps);
      case _ =>
    }
  }

  /** In every run the ledger holds at most one event per key, each of a tracked partition and its epoch. */
  lemma {:induction false} RunSound(cfg: Settings, s: Books, ops: seq<Op>)
    requires Sound(s)
    ensures Sound(Run(cfg, s, ops))
    decreases |ops|
  {
    if ops != [] {
      StepSound(cfg, s, ops[0]);
      RunSound(cfg, Do(cfg, s, ops[0]), ops[1..]);
    }
  }

  // ----- nothing is lost over a run

  ghost predicate Kept(s: Books, key: Key) {
    && key.0 in s.trackers
    && (key.1 <= s.trackers[key.0].committed || key.1 in s.trackers[key.0].completed || Has(s.ledger, key))
  }

  /** A batch keeps every key, whether it waits in the ledger or not. */
  lemma BatchKeeps(policy: DlqPolicy, s: Books, events: seq<Event>, outcomes: nat -> bool, key: Key)
    requires Sound(s) && Kept(s, key)
    ensures var b := ProcessBatch(policy, s.trackers, s.ledger, events, outcomes); Kept(Books(b.trackers, b.ledger), key)
  {
    var b, xs := Batch(s.trackers, s.ledger, {}, []), Entries(s.ledger, events, outcomes);
    AllGoOnward(policy, b, xs);
    if Has(s.ledger, key) {
      var i :| 0 <= i < |s.ledger| && KeyOf(s.ledger[i]) == key;
      assert s.ledger[i] in s.ledger;
      NothingIsLost(policy, s.trackers, s.ledger, events, outcomes, s.ledger[i]);
    }
  }

  lemma StepKeeps(cfg: Settings, s: Books, op: Op, key: Key)
    requires Sound(s) && Kept(s, key) && !Rebalances(op, key.0)
    ensures Kept(Do(cfg, s, op), key)
  {
    match op {
      case Processed(events, outcomes, _) => BatchKeeps(cfg.dlq, s, events, outcomes, key);
      case Revoked(tps) => HasRemaining(s.ledger, tps, key);
      case _ =>
    }
  }

  lemma {:induction false} RunKeeps(cfg: Settings, s: Books, ops: seq<Op>, key: Key)
    requires Sound(s) && Kept(s, key)
    requires forall i :: 0 <= i < |ops| ==> !Rebalances(ops[i], key.0)
    ensures Kept(Run(cfg, s, ops), key)
    decreases |ops|
  {
    if ops != [] {
      StepSound(cfg, s, ops[0]);
      StepKeeps(cfg, s, ops[0], key);
      RunKeeps(cfg, Do(cfg, s, ops[0]), ops[1..], key);
    }
  }

  /**
   Over every run from an empty ledger: once a tracked current-epoch event was handed to a
   batch, its offset is committed, completed or in the ledger until its partition is rebalanced.
   */
  lemma NothingIsEverLost(cfg: Settings, before: seq<Op>, batch: Op, after: seq<Op>, e: Event)
    requires batch.Processed? && e in batch.events
    requires Current(Run(cfg, Books(map[], []), before).trackers, e)
    requires forall i :: 0 <= i < |after| ==> !Rebalances(after[i], e.tp)
    ensures Kept(Run(cfg, Do(cfg, Run(cfg, Books(map[], []), before), batch), after), KeyOf(e))
  {
    var start := Books(map[], []);
    var s := Run(cfg, start, before);
    RunSound(cfg, start, before);
    NothingIsLost(cfg.dlq, s.trackers, s.ledger, batch.events, batch.outcomes, e);
    AllGoOnward(cfg.dlq, Batch(s.trackers, s.ledger, {}, []), Entries(s.ledger, batch.events, batch.outcomes));
    var next := Do(cfg, s, batch);
    assert Kept(next, KeyOf(e));
    StepSound(cfg, s, batch);
    RunKeeps(cfg, next, after, KeyOf(e));
  }

  // ----- a batch is a sequence of completions of the protocol

  /** The completions of a batch, as steps of member `id`: the entries that are current and over. */
  ghost function CompletionSteps(policy: DlqPolicy, b: Batch, xs: seq<Entry>, id: nat): seq<(nat, AtLeastOnce.Step)>
    decreases |xs|
  {
    if xs == [] then []
    else
      var rest := CompletionSteps(policy, ProcessOne(policy, b, xs[0]), xs[1..], id);
      if Completes(policy, b, xs[0]) then [(id, AtLeastOnce.Complete(xs[0].event, xs[0].published))] + rest else rest
  }

  /** The entry is processed, in the tracker's epoch, and its processing is over. */
  predicate Completes(policy: DlqPolicy, b: Batch, x: Entry) {
    !Ignored(b, x) && Current(b.trackers, x.event) && Settles(policy, x.event, x.published)
  }

  lemma TrackersAfterOne(policy: DlqPolicy, b: Batch, x: Entry)
    ensures ProcessOne(policy, b, x).trackers ==
            if Completes(policy, b, x) then AtLeastOnce.Mark(b.trackers, x.event) else b.trackers
  {
  }

  lemma CompleteStep(cfg: AtLeastOnce.Config, w: AtLeastOnce.World, id: nat, e: Event, published: bool)
    requires id in w.members && Current(w.members[id].trackers, e) && Settles(cfg.dlq, e, published)
    ensures var next := AtLeastOnce.Next(cfg, w, id, AtLeastOnce.Complete(e, published));
            && next.members == w.members[id := w.members[id].(trackers := AtLeastOnce.Mark(w.members[id].trackers, e))]
            && next.broker == w.broker
  {
  }

  /** The steps lead to a world where only member `id`'s trackers differ, and they are `trackers`. */
  ghost predicate Moves(cfg: AtLeastOnce.Config, w: AtLeastOnce.World, steps: seq<(nat, AtLeastOnce.Step)>, id: nat, trackers: TrackerMap) {
    && id in w.members
    && AtLeastOnce.Run(cfg, w, steps).members == w.members[id := w.members[id].(trackers := trackers)]
    && AtLeastOnce.Run(cfg, w, steps).broker == w.broker
  }

  lemma MovesNothing(cfg: AtLeastOnce.Config, w: AtLeastOnce.World, id: nat)
    requires id in w.members
    ensures Moves(cfg, w, [], id, w.members[id].trackers)
  {
  }

  lemma MovesFirst(cfg: AtLeastOnce.Config, w: AtLeastOnce.World, id: nat, e: Event, published: bool,
                   rest: seq<(nat, AtLeastOnce.Step)>, trackers: TrackerMap)
    requires id in w.members && Current(w.members[id].trackers, e) && Settles(cfg.dlq, e, published)
    requires Moves(cfg, AtLeastOnce.Next(cfg, w, id, AtLeastOnce.Complete(e, published)), rest, id, trackers)
    ensures Moves(cfg, w, [(id, AtLeastOnce.Complete(e, published))] + rest, id, trackers)
  {
    CompleteStep(cfg, w, id, e, published);
    var step := (id, AtLeastOnce.Complete(e, published));
    assert ([step] + rest)[1..] == rest;
  }

  /** Processing entries moves the member's trackers as completions of the protocol do, and nothing else. */
  lemma {:induction false} BatchIsCompletions(cfg: AtLeastOnce.Config, w: AtLeastOnce.World, id: nat, b: Batch, xs: seq<Entry>)
    requires id in w.members && w.members[id].trackers == b.trackers
    ensures Moves(cfg, w, CompletionSteps(cfg.dlq, b, xs, id), id, ProcessAll(cfg.dlq, b, xs).trackers)
    decreases |xs|
  {
    if xs == [] {
      MovesNothing(cfg, w, id);
    } else {
      var x, next := xs[0], ProcessOne(cfg.dlq, b, xs[0]);
      TrackersAfterOne(cfg.dlq, b, x);
      if Completes(cfg.dlq, b, x) {
        CompleteStep(cfg, w, id, x.event, x.published);
        BatchIsCompletions(cfg, AtLeastOnce.Next(cfg, w, id, AtLeastOnce.Complete(x.event, x.published)), id, next, xs[1..]);
        MovesFirst(cfg, w, id, x.event, x.published, CompletionSteps(cfg.dlq, next, xs[1..], id),
                   ProcessAll(cfg.dlq, b, xs).trackers);
      } else {
        BatchIsCompletions(cfg, w, id, next, xs[1..]);
      }
    }
  }

  /** The processor's batch, as a run of the protocol. */
  lemma ProcessBatchIsCompletions(cfg: AtLeastOnce.Config, w: AtLeastOnce.World, id: nat,
                                  ledger: Ledger, events: seq<Event>, outcomes: nat -> bool)
    requires id in w.members
    ensures var b := Batch(w.members[id].trackers, ledger, {}, []);
            Moves(cfg, w, CompletionSteps(cfg.dlq, b, Entries(ledger, events, outcomes), id), id,
                  ProcessBatch(cfg.dlq, w.members[id].trackers, ledger, events, outcomes).trackers)
  {
    BatchIsCompletions(cfg, w, id, Batch(w.members[id].trackers, ledger, {}, []), Entries(ledger, events, outcomes));
  }
}
