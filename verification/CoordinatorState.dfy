/**
 The commit coordinator as a value: the outbox of pending candidates, the batch in
 flight, lease markers and settled offsets, and what every synchronous section
 between two await points does to them. The class in CommitCoordinator.dfy is
 proved against these functions.
 */
module CoordinatorState {
  import opened Common

  datatype Candidate = Candidate(tp: TopicPartition, offset: int, epoch: int, lease: int)

  datatype Lease = Lease(tp: TopicPartition, epoch: int, id: int)

  function LeaseOf(x: Candidate): Lease { Lease(x.tp, x.epoch, x.lease) }

  type Outbox = map<TopicPartition, Candidate>

  datatype Coordinator = Coordinator(
    pending: Outbox,
    inFlight: Outbox,
    cancelled: set<Lease>,
    stopped: set<TopicPartition>,
    settled: map<TopicPartition, int>,
    leaseCounter: nat,
    accepting: bool,
    healthy: bool,
    coalesced: nat,
    failures: nat)

  const EMPTY := Coordinator(map[], map[], {}, {}, map[], 0, true, true, 0, 0)

  /** The latest settled offset, -1 when nothing has settled. */
  function SettledIn(settled: map<TopicPartition, int>, tp: TopicPartition): int {
    if tp in settled then settled[tp] else -1
  }

  function Leases(box: Outbox): set<Lease> {
    set tp | tp in box :: LeaseOf(box[tp])
  }

  /** Forgets lease markers that name no live candidate. */
  function Prune(c: Coordinator): Coordinator {
    c.(cancelled := c.cancelled * (Leases(c.pending) + Leases(c.inFlight)))
  }

  predicate Names(box: Outbox, lease: Lease) {
    lease.tp in box && box[lease.tp].epoch == lease.epoch && box[lease.tp].lease == lease.id
  }

  predicate IsActive(c: Coordinator, lease: Lease) {
    lease !in c.cancelled && (Names(c.pending, lease) || Names(c.inFlight, lease))
  }

  // ----- enqueue

  datatype Outcome = Skipped | Full | Queued(state: Coordinator, replaced: bool)

  /** The partition accepts work and `x` goes past everything known about it. */
  predicate Wanted(c: Coordinator, x: Candidate) {
    && x.tp !in c.stopped
    && x.offset > SettledIn(c.settled, x.tp)
    && (x.tp in c.pending ==> x.offset > c.pending[x.tp].offset)
    && (x.tp !in c.pending && x.tp in c.inFlight ==> x.offset > c.inFlight[x.tp].offset)
  }

  predicate Crowded(c: Coordinator, x: Candidate, max: int) {
    x.tp !in c.pending && |c.pending| + |c.inFlight| + (if x.tp in c.inFlight then 0 else 1) > max
  }

  function EnqueueOne(c: Coordinator, x: Candidate, max: int): Outcome {
    if !Wanted(c, x) then Skipped
    else if Crowded(c, x, max) then Full
    else Queued(Prune(Replace(c, x)), x.tp in c.pending)
  }

  /** Puts `x` into the outbox under a fresh lease, marking the replaced lease cancelled. */
  function Replace(c: Coordinator, x: Candidate): Coordinator {
    c.(pending := c.pending[x.tp := x.(lease := c.leaseCounter + 1)],
       cancelled := if x.tp in c.pending then c.cancelled + {LeaseOf(c.pending[x.tp])} else c.cancelled,
       leaseCounter := c.leaseCounter + 1)
  }

  /** All candidates in turn, counting the replaced ones; None when the outbox is full. */
  function EnqueueAll(c: Coordinator, xs: seq<Candidate>, max: int, count: nat): Option<(Coordinator, nat)>
    decreases |xs|
  {
    if xs == [] then Some((c, count))
    else
      match EnqueueOne(c, xs[0], max)
      case Skipped => EnqueueAll(c, xs[1..], max, count)
      case Full => None
      case Queued(c', replaced) => EnqueueAll(c', xs[1..], max, if replaced then count + 1 else count)
  }

  function Enqueue(c: Coordinator, xs: seq<Candidate>, max: int): (Coordinator, bool) {
    if !c.accepting || !c.healthy then (c, false)
    else
      match EnqueueAll(c, xs, max, 0)
      case None => (c.(failures := c.failures + 1), false)
      case Some((last, count)) => (last.(coalesced := c.coalesced + count), true)
  }

  // ----- partition control

  function Within(box: Outbox, tps: set<TopicPartition>): Outbox {
    map tp | tp in box && tp in tps :: box[tp]
  }

  function Withdraw(c: Coordinator, tps: set<TopicPartition>): Coordinator {
    c.(stopped := c.stopped + tps,
       pending := c.pending - tps,
       cancelled := c.cancelled + Leases(Within(c.pending, tps)))
  }

  function StopPartitions(c: Coordinator, tps: set<TopicPartition>): Coordinator {
    Prune(Withdraw(c, tps))
  }

  function StartPartitions(c: Coordinator, tps: set<TopicPartition>): Coordinator {
    c.(stopped := c.stopped - tps)
  }

  function Revoke(c: Coordinator, tps: set<TopicPartition>): Coordinator {
    c.(pending := c.pending - tps,
       inFlight := c.inFlight - tps,
       cancelled := c.cancelled + Leases(Within(c.pending, tps)) + Leases(Within(c.inFlight, tps)))
  }

  function CancelLeases(c: Coordinator, tps: set<TopicPartition>): Coordinator {
    Prune(Revoke(c, tps))
  }

  /** The further of the in-flight and pending candidates of each partition. */
  function Remaining(c: Coordinator): Outbox {
    map tp | tp in c.pending.Keys + c.inFlight.Keys ::
      if tp !in c.pending then c.inFlight[tp]
      else if tp !in c.inFlight then c.pending[tp]
      else if c.pending[tp].offset > c.inFlight[tp].offset then c.pending[tp]
      else c.inFlight[tp]
  }

  // ----- worker sections

  function StartBatch(c: Coordinator): Coordinator {
    c.(pending := map[], inFlight := c.pending)
  }

  function ActiveOf(c: Coordinator, batch: Outbox): Outbox {
    map tp | tp in batch && IsActive(c, LeaseOf(batch[tp])) :: batch[tp]
  }

  /** After a broker exception: still active candidates return to the outbox. */
  function RetryBatch(c: Coordinator, batch: Outbox): Coordinator {
    Prune(c.(pending := c.pending + ActiveOf(c, batch), inFlight := map[]))
  }

  /** After an abort or a crash: the whole batch is given up. */
  function DropBatch(c: Coordinator, batch: Outbox): Coordinator {
    Prune(c.(cancelled := c.cancelled + Leases(batch), inFlight := map[]))
  }

  /** After a broker commit returned: still active candidates are settled. */
  function SettleBatch(c: Coordinator, batch: Outbox): Coordinator {
    c.(settled := c.settled + map tp | tp in ActiveOf(c, batch) :: batch[tp].offset)
  }

  function FinishBatch(c: Coordinator): Coordinator {
    Prune(c.(inFlight := map[]))
  }

  function Crash(c: Coordinator): Coordinator {
    c.(healthy := false, accepting := false)
  }

  // ----- the invariant

  ghost predicate Keyed(box: Outbox) {
    forall tp :: tp in box ==> box[tp].tp == tp
  }

  ghost predicate Bounded(box: Outbox, n: int) {
    forall tp :: tp in box ==> 0 < box[tp].lease <= n
  }

  ghost predicate Apart(a: Outbox, b: Outbox) {
    forall s, t :: s in a && t in b ==> a[s].lease != b[t].lease
  }

  ghost predicate Unique(box: Outbox) {
    forall s, t :: s in box && t in box && box[s].lease == box[t].lease ==> s == t
  }

  /** Every candidate of `box` is also in `whole`, unchanged. */
  ghost predicate Part(box: Outbox, whole: Outbox) {
    forall tp :: tp in box ==> tp in whole && box[tp] == whole[tp]
  }

  /** Lease discipline: the leases of the outbox and of the worker's batch are issued and unique. */
  ghost predicate Issued(pending: Outbox, batch: Outbox, n: int) {
    && Keyed(pending) && Keyed(batch)
    && Bounded(pending, n) && Bounded(batch, n)
    && Unique(pending) && Unique(batch) && Apart(pending, batch)
  }

  /**
   Offset ladder, per partition: settled < in flight < pending. Only while the
   success callback runs does the in-flight offset equal the settled one.
   */
  ghost predicate Ladder(pending: Outbox, inFlight: Outbox, settled: map<TopicPartition, int>, settling: bool) {
    && (forall tp :: tp in pending ==> SettledIn(settled, tp) < pending[tp].offset)
    && (forall tp :: tp in inFlight ==>
          if settling then SettledIn(settled, tp) == inFlight[tp].offset
          else SettledIn(settled, tp) < inFlight[tp].offset)
    && (forall tp :: tp in pending && tp in inFlight ==> inFlight[tp].offset < pending[tp].offset)
  }

  ghost predicate Well(c: Coordinator, batch: Outbox, settling: bool) {
    && Issued(c.pending, batch, c.leaseCounter)
    && Part(c.inFlight, batch)
    && Ladder(c.pending, c.inFlight, c.settled, settling)
    && c.cancelled == {}
  }

  /** No more than `max` partitions have a candidate pending or in flight. */
  ghost predicate Fits(c: Coordinator, max: int) {
    |c.pending.Keys + c.inFlight.Keys| <= max
  }

  // ----- shrinking an outbox keeps every part of the invariant

  lemma MinusIsPart(box: Outbox, tps: set<TopicPartition>)
    ensures Part(box - tps, box) && Part(Within(box, tps), box)
    ensures (box - tps).Keys !! Within(box, tps).Keys
    ensures (box - tps).Keys <= box.Keys
  {
  }

  lemma IssuedShrinks(pending: Outbox, batch: Outbox, n: int, fewer: Outbox)
    requires Issued(pending, batch, n) && Part(fewer, pending)
    ensures Issued(fewer, batch, n)
  {
  }

  lemma LadderShrinks(p: Outbox, f: Outbox, settled: map<TopicPartition, int>, settling: bool, p': Outbox, f': Outbox)
    requires Ladder(p, f, settled, settling) && Part(p', p) && Part(f', f)
    ensures Ladder(p', f', settled, settling)
    ensures f' == map[] ==> Ladder(p', f', settled, false)
  {
  }

  lemma SubsetSize<T>(a: set<T>, b: set<T>)
    requires a <= b
    ensures |a| <= |b|
  {
    assert b == a + (b - a);
  }

  lemma UnionSize<T>(a: set<T>, b: set<T>)
    ensures |a + b| <= |a| + |b|
  {
  }

  /** Markers of candidates that left the outboxes name no live candidate. */
  lemma DroppedAreForgotten(box: Outbox, kept: Outbox, dropped: Outbox, other: Outbox)
    requires Part(kept, box) && Part(dropped, box) && kept.Keys !! dropped.Keys
    requires Unique(box) && Apart(box, other)
    ensures Leases(dropped) !! Leases(kept) && Leases(dropped) !! Leases(other)
  {
  }

  lemma ApartShrinks(a: Outbox, b: Outbox, b': Outbox)
    requires Apart(a, b) && Part(b', b)
    ensures Apart(a, b') && Apart(b', a)
  {
  }

  lemma PruneForgets(live: set<Lease>, other: set<Lease>, a: set<Lease>, b: set<Lease>)
    requires a !! live && a !! other && b !! live && b !! other
    ensures ({} + a) * (live + other) == {}
    ensures ({} + a + b) * (live + other) == {}
  {
  }

  // ----- every section keeps the invariant

  lemma ReplaceForgets(c: Coordinator, batch: Outbox, x: Candidate)
    requires Issued(c.pending, batch, c.leaseCounter) && Part(c.inFlight, batch) && c.cancelled == {}
    ensures Prune(Replace(c, x)).cancelled == {}
  {
  }

  function Queue(c: Coordinator, x: Candidate): Coordinator {
    c.(pending := c.pending[x.tp := x.(lease := c.leaseCounter + 1)],
       cancelled := {},
       leaseCounter := c.leaseCounter + 1)
  }

  lemma QueueKeeps(c: Coordinator, batch: Outbox, settling: bool, x: Candidate)
    requires Well(c, batch, settling) && Wanted(c, x)
    ensures Well(Queue(c, x), batch, settling)
  {
    QueueIssued(c, batch, x);
    QueueLadder(c, settling, x);
  }

  lemma QueueIssued(c: Coordinator, batch: Outbox, x: Candidate)
    requires Issued(c.pending, batch, c.leaseCounter)
    ensures Issued(Queue(c, x).pending, batch, Queue(c, x).leaseCounter)
  {
  }

  lemma QueueLadder(c: Coordinator, settling: bool, x: Candidate)
    requires Ladder(c.pending, c.inFlight, c.settled, settling) && Wanted(c, x)
    ensures Ladder(Queue(c, x).pending, Queue(c, x).inFlight, Queue(c, x).settled, settling)
  {
  }

  lemma QueuedState(c: Coordinator, batch: Outbox, max: int, x: Candidate)
    requires Issued(c.pending, batch, c.leaseCounter) && Part(c.inFlight, batch) && c.cancelled == {}
    requires EnqueueOne(c, x, max).Queued?
    ensures EnqueueOne(c, x, max).state == Queue(c, x)
  {
    ReplaceForgets(c, batch, x);
  }

  lemma EnqueueOneKeeps(c: Coordinator, batch: Outbox, settling: bool, max: int, x: Candidate)
    requires Well(c, batch, settling) && EnqueueOne(c, x, max).Queued?
    ensures EnqueueOne(c, x, max).state == Queue(c, x)
    ensures Well(Queue(c, x), batch, settling)
  {
    QueuedState(c, batch, max, x);
    QueueKeeps(c, batch, settling, x);
  }

  lemma {:induction false} EnqueueAllKeeps(c: Coordinator, batch: Outbox, settling: bool, max: int, xs: seq<Candidate>, count: nat)
    requires Well(c, batch, settling) && EnqueueAll(c, xs, max, count).Some?
    ensures Well(EnqueueAll(c, xs, max, count).value.0, batch, settling)
    decreases |xs|
  {
    if xs != [] {
      if EnqueueOne(c, xs[0], max).Skipped? {
        EnqueueAllKeeps(c, batch, settling, max, xs[1..], count);
      } else {
        EnqueueOneKeeps(c, batch, settling, max, xs[0]);
        EnqueueAllKeeps(Queue(c, xs[0]), batch, settling, max, xs[1..],
                        if xs[0].tp in c.pending then count + 1 else count);
      }
    }
  }

  lemma EnqueueKeeps(c: Coordinator, batch: Outbox, settling: bool, max: int, xs: seq<Candidate>)
    requires Well(c, batch, settling)
    ensures Well(Enqueue(c, xs, max).0, batch, settling)
  {
    if c.accepting && c.healthy && EnqueueAll(c, xs, max, 0).Some? {
      EnqueueAllKeeps(c, batch, settling, max, xs, 0);
    }
  }

  /** A refused enqueue is atomic: only the failure count may move. */
  lemma RefusedEnqueueIsAtomic(c: Coordinator, xs: seq<Candidate>, max: int)
    requires !Enqueue(c, xs, max).1
    ensures Enqueue(c, xs, max).0.(failures := c.failures) == c
  {
  }

  lemma StopForgets(c: Coordinator, batch: Outbox, tps: set<TopicPartition>)
    requires Issued(c.pending, batch, c.leaseCounter) && Part(c.inFlight, batch) && c.cancelled == {}
    ensures StopPartitions(c, tps).cancelled == {}
  {
  }

  lemma StopKeeps(c: Coordinator, batch: Outbox, settling: bool, tps: set<TopicPartition>)
    requires Well(c, batch, settling)
    ensures Well(StopPartitions(c, tps), batch, settling)
  {
    StopForgets(c, batch, tps);
    MinusIsPart(c.pending, tps);
    IssuedShrinks(c.pending, batch, c.leaseCounter, c.pending - tps);
    LadderShrinks(c.pending, c.inFlight, c.settled, settling, c.pending - tps, c.inFlight);
  }

  lemma CancelForgets(c: Coordinator, batch: Outbox, tps: set<TopicPartition>)
    requires Issued(c.pending, batch, c.leaseCounter) && Part(c.inFlight, batch) && c.cancelled == {}
    ensures CancelLeases(c, tps).cancelled == {}
  {
    var p, f := c.pending - tps, c.inFlight - tps;
    var gone, lost := Within(c.pending, tps), Within(c.inFlight, tps);
    MinusIsPart(c.pending, tps);
    MinusIsPart(c.inFlight, tps);
    ApartShrinks(c.pending, batch, c.inFlight);
    ApartShrinks(c.pending, c.inFlight, f);
    ApartShrinks(c.inFlight, c.pending, p);
    DroppedAreForgotten(c.pending, p, gone, f);
    DroppedAreForgotten(c.inFlight, f, lost, p);
    PruneForgets(Leases(p), Leases(f), Leases(gone), Leases(lost));
  }

  lemma CancelKeeps(c: Coordinator, batch: Outbox, settling: bool, tps: set<TopicPartition>)
    requires Well(c, batch, settling)
    ensures Well(CancelLeases(c, tps), batch, settling)
  {
    CancelForgets(c, batch, tps);
    MinusIsPart(c.pending, tps);
    MinusIsPart(c.inFlight, tps);
    IssuedShrinks(c.pending, batch, c.leaseCounter, c.pending - tps);
    LadderShrinks(c.pending, c.inFlight, c.settled, settling, c.pending - tps, c.inFlight - tps);
  }

  /** With no markers around, a batch candidate is active exactly while it is in flight. */
  lemma ActiveIsInFlight(c: Coordinator, batch: Outbox, tp: TopicPartition)
    requires Issued(c.pending, batch, c.leaseCounter) && Part(c.inFlight, batch) && c.cancelled == {}
    requires tp in batch
    ensures IsActive(c, LeaseOf(batch[tp])) <==> tp in c.inFlight
  {
  }

  lemma ActiveOfBatch(c: Coordinator, batch: Outbox)
    requires Issued(c.pending, batch, c.leaseCounter) && Part(c.inFlight, batch) && c.cancelled == {}
    ensures ActiveOf(c, batch) == c.inFlight
  {
  }

  lemma IssuedMerge(pending: Outbox, batch: Outbox, n: int, back: Outbox)
    requires Issued(pending, batch, n) && Part(back, batch)
    ensures Issued(pending + back, map[], n)
  {
  }

  lemma LadderMerge(p: Outbox, f: Outbox, settled: map<TopicPartition, int>)
    requires Ladder(p, f, settled, false)
    ensures Ladder(p + f, map[], settled, false)
  {
  }

  lemma RetryKeeps(c: Coordinator, batch: Outbox)
    requires Well(c, batch, false)
    ensures Well(c.(pending := c.pending + c.inFlight, inFlight := map[]), map[], false)
    ensures RetryBatch(c, batch) == c.(pending := c.pending + c.inFlight, inFlight := map[])
  {
    RetryState(c, batch);
    IssuedMerge(c.pending, batch, c.leaseCounter, c.inFlight);
    LadderMerge(c.pending, c.inFlight, c.settled);
  }

  /** A failed batch goes back whole, over whatever newer candidate was queued meanwhile. */
  lemma RetryState(c: Coordinator, batch: Outbox)
    requires Issued(c.pending, batch, c.leaseCounter) && Part(c.inFlight, batch) && c.cancelled == {}
    ensures RetryBatch(c, batch) == c.(pending := c.pending + c.inFlight, inFlight := map[])
  {
    ActiveOfBatch(c, batch);
  }

  lemma DropKeeps(c: Coordinator, batch: Outbox, settling: bool)
    requires Well(c, batch, settling)
    ensures Well(DropBatch(c, batch), map[], false)
  {
  }

  lemma FinishKeeps(c: Coordinator, batch: Outbox, settling: bool)
    requires Well(c, batch, settling)
    ensures Well(FinishBatch(c), map[], false)
  {
  }

  function OffsetsOf(box: Outbox): map<TopicPartition, int> {
    map tp | tp in box :: box[tp].offset
  }

  lemma LadderSettle(p: Outbox, f: Outbox, settled: map<TopicPartition, int>)
    requires Ladder(p, f, settled, false)
    ensures Ladder(p, f, settled + OffsetsOf(f), true)
    ensures forall tp :: tp in f ==>
              SettledIn(settled, tp) < SettledIn(settled + OffsetsOf(f), tp) == f[tp].offset
    ensures forall tp :: tp !in f ==> SettledIn(settled, tp) == SettledIn(settled + OffsetsOf(f), tp)
  {
  }

  lemma SettleBatchSettles(c: Coordinator, batch: Outbox)
    requires Issued(c.pending, batch, c.leaseCounter) && Part(c.inFlight, batch) && c.cancelled == {}
    ensures SettleBatch(c, batch) == c.(settled := c.settled + OffsetsOf(c.inFlight))
  {
    ActiveOfBatch(c, batch);
    assert (map tp | tp in c.inFlight :: batch[tp].offset) == OffsetsOf(c.inFlight);
  }

  /** Settling raises the settled offset of every partition still in flight, and of no other. */
  lemma SettledRises(c: Coordinator, batch: Outbox, c': Coordinator)
    requires Well(c, batch, false) && c' == SettleBatch(c, batch)
    ensures forall tp :: tp in c.inFlight ==>
              SettledIn(c.settled, tp) < SettledIn(c'.settled, tp) == c.inFlight[tp].offset
    ensures forall tp :: tp !in c.inFlight ==> SettledIn(c.settled, tp) == SettledIn(c'.settled, tp)
  {
    SettleBatchSettles(c, batch);
    LadderSettle(c.pending, c.inFlight, c.settled);
  }

  lemma SettleKeeps(c: Coordinator, batch: Outbox)
    requires Well(c, batch, false)
    ensures Well(SettleBatch(c, batch), batch, true)
  {
    SettleBatchSettles(c, batch);
    LadderSettle(c.pending, c.inFlight, c.settled);
  }

  // ----- capacity

  lemma QueueFits(c: Coordinator, max: int, x: Candidate)
    requires Fits(c, max) && !Crowded(c, x, max)
    ensures Fits(Queue(c, x), max)
  {
    var p, f := c.pending.Keys, c.inFlight.Keys;
    assert Queue(c, x).pending.Keys == p + {x.tp};
    GrowByOne(p, f, x.tp, max);
  }

  lemma GrowByOne<T>(p: set<T>, f: set<T>, x: T, max: int)
    requires |p + f| <= max
    requires x in p || x in f || |p| + |f| + 1 <= max
    ensures |(p + {x}) + f| <= max
  {
    assert (p + {x}) + f == (p + f) + {x};
    if x in p + f {
      assert (p + f) + {x} == p + f;
    } else {
      UnionSize(p, f);
    }
  }

  lemma {:induction false} EnqueueAllFits(c: Coordinator, batch: Outbox, settling: bool, max: int, xs: seq<Candidate>, count: nat)
    requires Well(c, batch, settling) && Fits(c, max) && EnqueueAll(c, xs, max, count).Some?
    ensures Fits(EnqueueAll(c, xs, max, count).value.0, max)
    decreases |xs|
  {
    if xs != [] {
      if EnqueueOne(c, xs[0], max).Skipped? {
        EnqueueAllFits(c, batch, settling, max, xs[1..], count);
      } else {
        EnqueueOneKeeps(c, batch, settling, max, xs[0]);
        QueueFits(c, max, xs[0]);
        EnqueueAllFits(Queue(c, xs[0]), batch, settling, max, xs[1..],
                        if xs[0].tp in c.pending then count + 1 else count);
      }
    }
  }

  lemma EnqueueFits(c: Coordinator, batch: Outbox, settling: bool, max: int, xs: seq<Candidate>)
    requires Well(c, batch, settling) && Fits(c, max)
    ensures Fits(Enqueue(c, xs, max).0, max)
  {
    if c.accepting && c.healthy && EnqueueAll(c, xs, max, 0).Some? {
      EnqueueAllFits(c, batch, settling, max, xs, 0);
    }
  }

  /** Apart from enqueue, no section adds a partition. */
  lemma NoNewPartitionsFit(c: Coordinator, c': Coordinator, max: int)
    requires Fits(c, max) && c'.pending.Keys + c'.inFlight.Keys <= c.pending.Keys + c.inFlight.Keys
    ensures Fits(c', max)
  {
    SubsetSize(c'.pending.Keys + c'.inFlight.Keys, c.pending.Keys + c.inFlight.Keys);
  }

  // ----- what an accepted enqueue achieves

  /** Nothing further than `x` is left to ask of its partition. */
  ghost predicate Covers(c: Coordinator, x: Candidate) {
    || x.offset <= SettledIn(c.settled, x.tp)
    || (x.tp in c.pending && x.offset <= c.pending[x.tp].offset)
    || (x.tp in c.inFlight && x.offset <= c.inFlight[x.tp].offset)
  }

  lemma EnqueueOneCovers(c: Coordinator, x: Candidate, max: int, y: Candidate)
    requires !EnqueueOne(c, x, max).Full?
    ensures var c' := if EnqueueOne(c, x, max).Queued? then EnqueueOne(c, x, max).state else c;
            && c'.stopped == c.stopped
            && (x.tp !in c.stopped ==> Covers(c', x))
            && (Covers(c, y) ==> Covers(c', y))
  {
  }

  lemma {:induction false} EnqueueAllCovers(c: Coordinator, xs: seq<Candidate>, max: int, count: nat, y: Candidate)
    requires EnqueueAll(c, xs, max, count).Some?
    requires Covers(c, y) || (y in xs && y.tp !in c.stopped)
    ensures Covers(EnqueueAll(c, xs, max, count).value.0, y)
    decreases |xs|
  {
    if xs != [] {
      EnqueueOneCovers(c, xs[0], max, y);
      match EnqueueOne(c, xs[0], max) {
        case Skipped => EnqueueAllCovers(c, xs[1..], max, count, y);
        case Queued(c', replaced) => EnqueueAllCovers(c', xs[1..], max, if replaced then count + 1 else count, y);
      }
    }
  }

  /**
   An accepted enqueue loses no commit intent: the offset of every candidate of a partition
   that is not stopped is settled, in flight or pending, or a further one is.
   */
  lemma AcceptedEnqueueCovers(c: Coordinator, xs: seq<Candidate>, max: int, x: Candidate)
    requires Enqueue(c, xs, max).1 && x in xs && x.tp !in c.stopped
    ensures Covers(Enqueue(c, xs, max).0, x)
  {
    EnqueueAllCovers(c, xs, max, 0, x);
  }

  lemma {:induction false} EnqueueAllCounts(c: Coordinator, xs: seq<Candidate>, max: int, count: nat)
    requires EnqueueAll(c, xs, max, count).Some?
    ensures var (c', n) := EnqueueAll(c, xs, max, count).value;
            |c'.pending| - |c.pending| == (c'.leaseCounter - c.leaseCounter) - (n - count)
    decreases |xs|
  {
    if xs != [] {
      match EnqueueOne(c, xs[0], max) {
        case Skipped => EnqueueAllCounts(c, xs[1..], max, count);
        case Queued(c', replaced) =>
          OneMorePending(c, xs[0]);
          EnqueueAllCounts(c', xs[1..], max, if replaced then count + 1 else count);
      }
    }
  }

  lemma OneMorePending(c: Coordinator, x: Candidate)
    ensures |Replace(c, x).pending| == |c.pending| + (if x.tp in c.pending then 0 else 1)
  {
    assert Replace(c, x).pending.Keys == c.pending.Keys + {x.tp};
    if x.tp in c.pending {
      assert c.pending.Keys + {x.tp} == c.pending.Keys;
    }
  }

  /** Every lease an enqueue issues takes a new place in the outbox or is counted as coalesced. */
  lemma EnqueueConservesCounts(c: Coordinator, xs: seq<Candidate>, max: int)
    requires Enqueue(c, xs, max).1
    ensures var c' := Enqueue(c, xs, max).0;
            |c'.pending| - |c.pending| == (c'.leaseCounter - c.leaseCounter) - (c'.coalesced - c.coalesced)
  {
    EnqueueAllCounts(c, xs, max, 0);
  }
}
