/**
 The virtual queues as a value: plain queues per (partition, key), the runnable keys
 in FIFO order with their active set, and the two head indexes. The nested queue
 dictionaries of the source are flattened to one map keyed by (partition, key).
 */
module TopologyState {
  import opened Common

  type RecordKey = string
  type QueueKey = (TopicPartition, RecordKey)
  type HeadKey = (TopicPartition, int)

  datatype WorkItem = WorkItem(id: int, offset: int)

  type Queues = map<QueueKey, seq<WorkItem>>
  type Heads = map<QueueKey, int>
  type HeadIndex = map<HeadKey, QueueKey>

  datatype Topology = Topology(
    owned: set<TopicPartition>,
    queues: Queues,
    runnable: seq<QueueKey>,
    active: set<QueueKey>,
    heads: Heads,
    byHead: HeadIndex)

  const EMPTY := Topology({}, map[], [], {}, map[], map[])

  function QueueOf(s: Topology, k: QueueKey): seq<WorkItem> {
    if k in s.queues then s.queues[k] else []
  }

  // ----- index maintenance

  function Without(r: seq<QueueKey>, k: QueueKey): seq<QueueKey> {
    if r == [] then []
    else if r[0] == k then Without(r[1..], k)
    else [r[0]] + Without(r[1..], k)
  }

  function Appended(r: seq<QueueKey>, k: QueueKey): seq<QueueKey> {
    if k in r then r else r + [k]
  }

  function IndexWithout(byHead: HeadIndex, heads: Heads, k: QueueKey): HeadIndex {
    if k in heads then byHead - {(k.0, heads[k])} else byHead
  }

  function Deactivate(s: Topology, k: QueueKey): Topology {
    s.(active := s.active - {k},
       runnable := Without(s.runnable, k),
       heads := s.heads - {k},
       byHead := IndexWithout(s.byHead, s.heads, k))
  }

  function Activate(s: Topology, k: QueueKey): Topology {
    if k in s.active then s
    else s.(active := s.active + {k}, runnable := Appended(s.runnable, k))
  }

  function SetHead(s: Topology, k: QueueKey, offset: int): Topology {
    s.(heads := s.heads[k := offset], byHead := s.byHead[(k.0, offset) := k])
  }

  /** Re-derives the index entries of `k` from its queue; a non-empty queue goes to the back. */
  function Refresh(s: Topology, k: QueueKey): Topology {
    var cleared := Deactivate(s, k);
    var q := QueueOf(s, k);
    if q == [] then cleared else Activate(SetHead(cleared, k, q[0].offset), k)
  }

  // ----- operations

  function Assign(s: Topology, tp: TopicPartition): Topology {
    s.(owned := s.owned + {tp}, queues := map k | k in s.queues && k.0 != tp :: s.queues[k])
  }

  /** Unassigned partitions are refused and nothing changes. */
  function EnqueueBatch(s: Topology, k: QueueKey, items: seq<WorkItem>): Topology {
    if k.0 !in s.owned then s
    else
      var q := QueueOf(s, k);
      var filled := s.(queues := s.queues[k := q + items]);
      if q == [] && items != [] then Refresh(filled, k) else filled
  }

  function CleanupEmpty(s: Topology, k: QueueKey): Topology {
    if k in s.queues && s.queues[k] == [] then
      var d := Deactivate(s, k);
      d.(queues := d.queues - {k})
    else s
  }

  function Taken(q: seq<WorkItem>, count: int): nat {
    if count <= 0 then 0 else if count < |q| then count else |q|
  }

  function DequeueItems(s: Topology, k: QueueKey, count: int): (Topology, seq<WorkItem>) {
    var q := QueueOf(s, k);
    if count <= 0 then (s, [])
    else if q == [] then (Deactivate(s, k), [])
    else
      var n := Taken(q, count);
      var shorter := s.(queues := s.queues[k := q[n..]]);
      (if n == |q| then CleanupEmpty(shorter, k) else Refresh(shorter, k), q[..n])
  }

  /** The single dequeue: one item from the front, or none and the key deactivated. */
  function DequeueItem(s: Topology, k: QueueKey): (Topology, Option<WorkItem>) {
    var q := QueueOf(s, k);
    if q == [] then (Deactivate(s, k), None)
    else
      var shorter := s.(queues := s.queues[k := q[1..]]);
      (if q[1..] == [] then CleanupEmpty(shorter, k) else Refresh(shorter, k), Some(q[0]))
  }

  /** It is the counted dequeue of one. */
  lemma DequeueItemIsOne(s: Topology, k: QueueKey)
    ensures DequeueItem(s, k).0 == DequeueItems(s, k, 1).0
    ensures DequeueItems(s, k, 1).1 == if DequeueItem(s, k).1.Some? then [DequeueItem(s, k).1.value] else []
  {
    var q := QueueOf(s, k);
    assert q != [] ==> q[..1] == [q[0]];
  }

  // ----- the indexes agree with the queues

  ghost predicate HeadsExact(queues: Queues, heads: Heads) {
    && (forall k :: k in heads ==> k in queues && queues[k] != [] && heads[k] == queues[k][0].offset)
    && (forall k :: k in queues && queues[k] != [] ==> k in heads)
  }

  /** The offset index is the inverse of the head map. */
  ghost predicate Inverse(heads: Heads, byHead: HeadIndex) {
    && (forall k :: k in heads ==> (k.0, heads[k]) in byHead && byHead[(k.0, heads[k])] == k)
    && (forall p :: p in byHead ==> byHead[p].0 == p.0 && byHead[p] in heads && heads[byHead[p]] == p.1)
  }

  ghost predicate NoRepeats(r: seq<QueueKey>) {
    forall i, j :: 0 <= i < j < |r| ==> r[i] != r[j]
  }

  ghost predicate RunnableExact(runnable: seq<QueueKey>, active: set<QueueKey>) {
    NoRepeats(runnable) && forall k :: k in runnable <==> k in active
  }

  /** Offsets are unique within a partition. */
  ghost predicate UniqueOffsets(queues: Queues) {
    && (forall k, i, j :: k in queues && 0 <= i < j < |queues[k]| ==> queues[k][i].offset != queues[k][j].offset)
    && (forall k, l, i, j ::
          (k in queues && l in queues && k != l && k.0 == l.0 && 0 <= i < |queues[k]| && 0 <= j < |queues[l]|) ==>
            queues[k][i].offset != queues[l][j].offset)
  }

  ghost predicate Agree(s: Topology) {
    && HeadsExact(s.queues, s.heads)
    && Inverse(s.heads, s.byHead)
    && RunnableExact(s.runnable, s.active)
    && s.active <= s.heads.Keys
  }

  // ----- pieces

  lemma {:induction false} WithoutMembers(r: seq<QueueKey>, k: QueueKey, x: QueueKey)
    ensures x in Without(r, k) <==> x in r && x != k
  {
    if r != [] {
      WithoutMembers(r[1..], k, x);
    }
  }

  lemma {:induction false} WithoutKeepsOrder(r: seq<QueueKey>, k: QueueKey)
    requires NoRepeats(r)
    ensures NoRepeats(Without(r, k))
  {
    if r != [] {
      WithoutKeepsOrder(r[1..], k);
      if r[0] != k {
        WithoutMembers(r[1..], k, r[0]);
        assert r[0] !in r[1..];
      }
    }
  }

  lemma RunnableWithout(r: seq<QueueKey>, active: set<QueueKey>, k: QueueKey)
    requires RunnableExact(r, active)
    ensures RunnableExact(Without(r, k), active - {k})
  {
    WithoutKeepsOrder(r, k);
    forall x ensures x in Without(r, k) <==> x in active - {k} {
      WithoutMembers(r, k, x);
    }
  }

  lemma RunnableAppended(r: seq<QueueKey>, active: set<QueueKey>, k: QueueKey)
    requires RunnableExact(r, active) && k !in active
    ensures RunnableExact(Appended(r, k), active + {k})
  {
  }

  lemma InverseWithout(heads: Heads, byHead: HeadIndex, k: QueueKey)
    requires Inverse(heads, byHead)
    ensures Inverse(heads - {k}, IndexWithout(byHead, heads, k))
  {
  }

  lemma InverseWith(heads: Heads, byHead: HeadIndex, k: QueueKey, offset: int)
    requires Inverse(heads, byHead) && k !in heads
    requires forall l :: l in heads && l.0 == k.0 ==> heads[l] != offset
    ensures Inverse(heads[k := offset], byHead[(k.0, offset) := k])
  {
  }

  lemma NoRivalHead(queues: Queues, heads: Heads, k: QueueKey)
    requires UniqueOffsets(queues) && k in queues && queues[k] != []
    requires forall l :: l in heads ==> l != k && l in queues && queues[l] != [] && heads[l] == queues[l][0].offset
    ensures forall l :: l in heads && l.0 == k.0 ==> heads[l] != queues[k][0].offset
  {
  }

  /** Head entries are right and belong to no deferred key; every other non-empty queue has one. */
  ghost predicate HeadsExactOutside(queues: Queues, heads: Heads, deferred: set<QueueKey>) {
    && (forall l :: l in heads ==> l !in deferred && l in queues && queues[l] != [] && heads[l] == queues[l][0].offset)
    && (forall l :: l in queues && queues[l] != [] && l !in deferred ==> l in heads)
  }

  /** `Agree` outside a set of deferred keys, the only ones that may be in line without a head entry. */
  ghost predicate AgreeOutside(s: Topology, deferred: set<QueueKey>) {
    && HeadsExactOutside(s.queues, s.heads, deferred)
    && Inverse(s.heads, s.byHead)
    && RunnableExact(s.runnable, s.active)
    && s.active <= s.heads.Keys + deferred
  }

  /** The same, but the entries of `k` itself may be out of date. */
  ghost predicate AgreeExcept(s: Topology, deferred: set<QueueKey>, k: QueueKey) {
    && HeadsExactOutside(s.queues, s.heads - {k}, deferred + {k})
    && Inverse(s.heads, s.byHead)
    && RunnableExact(s.runnable, s.active)
    && s.active <= s.heads.Keys + deferred + {k}
  }

  /** With nothing deferred the indexes agree everywhere. */
  lemma NoneDeferredIsAgree(s: Topology)
    ensures AgreeOutside(s, {}) <==> Agree(s)
  {
    assert s.heads.Keys + {} == s.heads.Keys;
  }

  lemma DeactivatePieces(s: Topology, deferred: set<QueueKey>, k: QueueKey)
    requires AgreeExcept(s, deferred, k)
    ensures AgreeOutside(Deactivate(s, k), deferred + {k})
    ensures QueueOf(s, k) == [] ==>
              AgreeOutside(Deactivate(s, k), deferred - {k}) && AgreeOutside(Deactivate(s, k), deferred)
    ensures k !in Deactivate(s, k).heads && k !in Deactivate(s, k).active
  {
    InverseWithout(s.heads, s.byHead, k);
    RunnableWithout(s.runnable, s.active, k);
    InLineWithout(s.active, s.heads, deferred, k);
    EmptyNeedsNoHead(s.queues, s.heads - {k}, deferred, k);
  }

  lemma EmptyNeedsNoHead(queues: Queues, heads: Heads, deferred: set<QueueKey>, k: QueueKey)
    requires HeadsExactOutside(queues, heads, deferred + {k})
    ensures !(k in queues && queues[k] != []) ==>
              HeadsExactOutside(queues, heads, deferred - {k}) && HeadsExactOutside(queues, heads, deferred)
  {
  }

  lemma InLineWithout(active: set<QueueKey>, heads: Heads, deferred: set<QueueKey>, k: QueueKey)
    requires active <= heads.Keys + deferred + {k}
    ensures active - {k} <= (heads - {k}).Keys + (deferred - {k})
  {
  }

  lemma ExactIsExactExcept(queues: Queues, heads: Heads, deferred: set<QueueKey>, k: QueueKey, q: seq<WorkItem>)
    requires HeadsExactOutside(queues, heads, deferred)
    ensures HeadsExactOutside(queues, heads - {k}, deferred + {k})
    ensures HeadsExactOutside(queues[k := q], heads - {k}, deferred + {k})
  {
  }

  lemma AgreeIsAgreeExcept(s: Topology, deferred: set<QueueKey>, k: QueueKey)
    requires AgreeOutside(s, deferred)
    ensures AgreeExcept(s, deferred, k)
  {
    ExactIsExactExcept(s.queues, s.heads, deferred, k, []);
  }

  /** Refreshing `k` restores agreement for it whatever its entries were before. */
  lemma RefreshAgrees(s: Topology, deferred: set<QueueKey>, k: QueueKey)
    requires AgreeExcept(s, deferred, k) && UniqueOffsets(s.queues)
    ensures AgreeOutside(Refresh(s, k), deferred - {k})
  {
    DeactivatePieces(s, deferred, k);
    if QueueOf(s, k) != [] {
      HeadRestored(Deactivate(s, k), deferred + {k}, k);
      assert deferred + {k} - {k} == deferred - {k};
    }
  }

  lemma HeadRestored(d: Topology, deferred: set<QueueKey>, k: QueueKey)
    requires AgreeOutside(d, deferred) && UniqueOffsets(d.queues)
    requires k in d.queues && d.queues[k] != [] && k in deferred && k !in d.active
    ensures AgreeOutside(Activate(SetHead(d, k, d.queues[k][0].offset), k), deferred - {k})
  {
    NoRivalHead(d.queues, d.heads, k);
    InverseWith(d.heads, d.byHead, k, d.queues[k][0].offset);
    RunnableAppended(d.runnable, d.active, k);
    ExactWith(d.queues, d.heads, deferred, k);
  }

  lemma ExactWith(queues: Queues, heads: Heads, deferred: set<QueueKey>, k: QueueKey)
    requires HeadsExactOutside(queues, heads, deferred) && k in queues && queues[k] != [] && k in deferred
    ensures HeadsExactOutside(queues, heads[k := queues[k][0].offset], deferred - {k})
  {
  }

  // ----- every operation keeps the indexes exact

  ghost predicate Good(s: Topology, deferred: set<QueueKey>) {
    AgreeOutside(s, deferred) && UniqueOffsets(s.queues)
  }

  /** The items bring no offset their partition already has queued, nor one twice. */
  ghost predicate Fresh(queues: Queues, k: QueueKey, items: seq<WorkItem>) {
    && (forall i, j :: 0 <= i < j < |items| ==> items[i].offset != items[j].offset)
    && (forall l, i, j :: (l in queues && l.0 == k.0 && 0 <= i < |items| && 0 <= j < |queues[l]|) ==>
          items[i].offset != queues[l][j].offset)
  }

  lemma UniqueAfterEnqueue(queues: Queues, k: QueueKey, items: seq<WorkItem>)
    requires UniqueOffsets(queues) && Fresh(queues, k, items)
    ensures UniqueOffsets(queues[k := (if k in queues then queues[k] else []) + items])
  {
  }

  lemma UniqueAfterTake(queues: Queues, k: QueueKey, n: nat)
    requires UniqueOffsets(queues) && k in queues && n <= |queues[k]|
    ensures UniqueOffsets(queues[k := queues[k][n..]])
  {
  }

  lemma UniqueWithout(queues: Queues, fewer: Queues)
    requires UniqueOffsets(queues) && forall k :: k in fewer ==> k in queues && fewer[k] == queues[k]
    ensures UniqueOffsets(fewer)
  {
  }

  lemma OtherQueuesAgree(s: Topology, deferred: set<QueueKey>, k: QueueKey, q: seq<WorkItem>)
    requires AgreeOutside(s, deferred)
    ensures AgreeExcept(s.(queues := s.queues[k := q]), deferred, k)
  {
    ExactIsExactExcept(s.queues, s.heads, deferred, k, q);
  }

  lemma EnqueueKeeps(s: Topology, deferred: set<QueueKey>, k: QueueKey, items: seq<WorkItem>)
    requires Good(s, deferred) && Fresh(s.queues, k, items)
    ensures Good(EnqueueBatch(s, k, items), AfterEnqueue(s, deferred, k, items))
  {
    if k.0 in s.owned {
      var q := QueueOf(s, k);
      var filled := s.(queues := s.queues[k := q + items]);
      UniqueAfterEnqueue(s.queues, k, items);
      if q == [] && items != [] {
        OtherQueuesAgree(s, deferred, k, q + items);
        RefreshAgrees(filled, deferred, k);
      } else {
        SameHead(s, deferred, k, q + items);
      }
    }
  }

  /** A queue that keeps its head, or stays empty, needs no refresh. */
  lemma SameHead(s: Topology, deferred: set<QueueKey>, k: QueueKey, q: seq<WorkItem>)
    requires AgreeOutside(s, deferred)
    requires if QueueOf(s, k) == [] then q == [] else q != [] && q[0] == QueueOf(s, k)[0]
    ensures AgreeOutside(s.(queues := s.queues[k := q]), deferred)
  {
    SameHeadExact(s.queues, s.heads, deferred, k, q);
  }

  lemma SameHeadExact(queues: Queues, heads: Heads, deferred: set<QueueKey>, k: QueueKey, q: seq<WorkItem>)
    requires HeadsExactOutside(queues, heads, deferred)
    requires if k !in queues || queues[k] == [] then q == [] else q != [] && q[0] == queues[k][0]
    ensures HeadsExactOutside(queues[k := q], heads, deferred)
  {
  }

  lemma CleanupAgrees(s: Topology, deferred: set<QueueKey>, k: QueueKey)
    requires AgreeExcept(s, deferred, k) && k in s.queues && s.queues[k] == []
    ensures AgreeOutside(CleanupEmpty(s, k), deferred - {k})
  {
    DeactivatePieces(s, deferred, k);
    var d := Deactivate(s, k);
    NothingQueuedThere(d.queues, d.heads, deferred - {k}, {k});
    assert CleanupEmpty(s, k) == d.(queues := d.queues - {k});
  }

  lemma NothingQueuedThere(queues: Queues, heads: Heads, deferred: set<QueueKey>, gone: set<QueueKey>)
    requires HeadsExactOutside(queues, heads, deferred)
    requires forall k :: k in gone && k in queues ==> queues[k] == []
    ensures HeadsExactOutside(queues - gone, heads, deferred)
  {
  }

  lemma DequeueKeeps(s: Topology, deferred: set<QueueKey>, k: QueueKey, count: int)
    requires Good(s, deferred)
    ensures Good(DequeueItems(s, k, count).0, if count <= 0 then deferred else deferred - {k})
  {
    var q := QueueOf(s, k);
    if count > 0 && q != [] {
      var n := Taken(q, count);
      var shorter := s.(queues := s.queues[k := q[n..]]);
      UniqueAfterTake(s.queues, k, n);
      OtherQueuesAgree(s, deferred, k, q[n..]);
      if n == |q| {
        CleanupAgrees(shorter, deferred, k);
        UniqueWithout(shorter.queues, CleanupEmpty(shorter, k).queues);
      } else {
        RefreshAgrees(shorter, deferred, k);
      }
    } else if count > 0 {
      AgreeIsAgreeExcept(s, deferred, k);
      DeactivatePieces(s, deferred, k);
    }
  }

  /** Deactivating a key keeps the indexes exact precisely when its queue holds nothing. */
  lemma DeactivateExactlyWhenEmpty(s: Topology, k: QueueKey)
    requires Agree(s)
    ensures Agree(Deactivate(s, k)) <==> QueueOf(s, k) == []
  {
    NoneDeferredIsAgree(s);
    AgreeIsAgreeExcept(s, {}, k);
    DeactivatePieces(s, {}, k);
    assert {} - {k} == {};
    NoneDeferredIsAgree(Deactivate(s, k));
  }

  lemma DeactivateKeeps(s: Topology, deferred: set<QueueKey>, k: QueueKey)
    requires Good(s, deferred)
    ensures Good(Deactivate(s, k), if QueueOf(s, k) == [] then deferred - {k} else deferred + {k})
  {
    AgreeIsAgreeExcept(s, deferred, k);
    DeactivatePieces(s, deferred, k);
  }

  lemma ActivateKeeps(s: Topology, deferred: set<QueueKey>, k: QueueKey)
    requires Good(s, deferred)
    ensures Good(Activate(s, k), if k in s.heads then deferred else deferred + {k})
  {
    if k !in s.active {
      RunnableAppended(s.runnable, s.active, k);
    }
    if k !in s.heads {
      MoreDeferred(s.queues, s.heads, deferred, k);
    }
  }

  lemma MoreDeferred(queues: Queues, heads: Heads, deferred: set<QueueKey>, k: QueueKey)
    requires HeadsExactOutside(queues, heads, deferred) && k !in heads
    ensures HeadsExactOutside(queues, heads, deferred + {k})
  {
  }

  /** Activating a key keeps the indexes exact precisely when its queue holds something. */
  lemma ActivateExactlyWhenQueued(s: Topology, k: QueueKey)
    requires Agree(s)
    ensures Agree(Activate(s, k)) <==> QueueOf(s, k) != []
  {
    if k !in s.active {
      RunnableAppended(s.runnable, s.active, k);
    }
  }

  /**
   Assigning a partition replaces its queues but not its index entries, so the indexes
   stay exact precisely when the partition had nothing queued.
   */
  lemma AssignExactlyWhenDrained(s: Topology, tp: TopicPartition)
    requires Agree(s)
    ensures Agree(Assign(s, tp)) <==> forall k :: k in s.queues && k.0 == tp ==> s.queues[k] == []
  {
  }

  lemma AssignKeeps(s: Topology, deferred: set<QueueKey>, tp: TopicPartition)
    requires Good(s, deferred) && forall k :: k in s.queues && k.0 == tp ==> s.queues[k] == []
    ensures Good(Assign(s, tp), deferred)
  {
    NothingQueuedThere(s.queues, s.heads, deferred, KeysOf(s.queues, tp));
    assert Assign(s, tp).queues == s.queues - KeysOf(s.queues, tp);
    UniqueWithout(s.queues, Assign(s, tp).queues);
  }

  function OneQueued(tp: TopicPartition): Topology {
    EnqueueBatch(Assign(EMPTY, tp), (tp, "k"), [WorkItem(1, 7)])
  }

  lemma OneQueuedAgrees(tp: TopicPartition)
    ensures Agree(OneQueued(tp)) && QueueOf(OneQueued(tp), (tp, "k")) == [WorkItem(1, 7)]
  {
    var s0 := Assign(EMPTY, tp);
    assert Good(s0, {});
    EnqueueKeeps(s0, {}, (tp, "k"), [WorkItem(1, 7)]);
    assert AfterEnqueue(s0, {}, (tp, "k"), [WorkItem(1, 7)]) == {};
    NoneDeferredIsAgree(OneQueued(tp));
    EnqueueConserves(s0, (tp, "k"), [WorkItem(1, 7)], (tp, "k"));
  }

  /** Re-assigning a partition that still has work queued leaves a head for a queue that is gone. */
  lemma ReassignLeavesStaleHead(tp: TopicPartition)
    ensures var k: QueueKey := (tp, "k");
            var s := OneQueued(tp);
            Agree(s) && !Agree(Assign(s, tp)) && k in Assign(s, tp).heads && k !in Assign(s, tp).queues
  {
    OneQueuedAgrees(tp);
    AssignExactlyWhenDrained(OneQueued(tp), tp);
  }

  // ----- revoke

  function FilterOut(r: seq<QueueKey>, gone: set<QueueKey>): seq<QueueKey> {
    if r == [] then []
    else if r[0] in gone then FilterOut(r[1..], gone)
    else [r[0]] + FilterOut(r[1..], gone)
  }

  function DropKeys(s: Topology, gone: set<QueueKey>): Topology {
    s.(active := s.active - gone,
       runnable := FilterOut(s.runnable, gone),
       heads := s.heads - gone,
       byHead := map p | p in s.byHead && s.byHead[p] !in gone :: s.byHead[p])
  }

  function KeysOf(queues: Queues, tp: TopicPartition): set<QueueKey> {
    set k | k in queues && k.0 == tp
  }

  function Revoke(s: Topology, tp: TopicPartition): Topology {
    var d := DropKeys(s, KeysOf(s.queues, tp));
    d.(owned := s.owned - {tp}, queues := map k | k in s.queues && k.0 != tp :: s.queues[k])
  }

  lemma {:induction false} FilterMembers(r: seq<QueueKey>, gone: set<QueueKey>, x: QueueKey)
    ensures x in FilterOut(r, gone) <==> x in r && x !in gone
  {
    if r != [] {
      FilterMembers(r[1..], gone, x);
    }
  }

  lemma {:induction false} FilterKeepsOrder(r: seq<QueueKey>, gone: set<QueueKey>)
    requires NoRepeats(r)
    ensures NoRepeats(FilterOut(r, gone))
  {
    if r != [] {
      FilterKeepsOrder(r[1..], gone);
      FilterMembers(r[1..], gone, r[0]);
      assert r[0] !in r[1..];
    }
  }

  lemma {:induction false} FilterOne(r: seq<QueueKey>, gone: set<QueueKey>, k: QueueKey)
    ensures Without(FilterOut(r, gone), k) == FilterOut(r, gone + {k})
  {
    if r != [] {
      FilterOne(r[1..], gone, k);
      var f := FilterOut(r[1..], gone);
      assert ([r[0]] + f)[1..] == f;
    }
  }

  /** Deactivating keys one by one drops them all. */
  lemma DropOne(s: Topology, gone: set<QueueKey>, k: QueueKey)
    requires Inverse(s.heads, s.byHead)
    ensures Deactivate(DropKeys(s, gone), k) == DropKeys(s, gone + {k})
  {
    FilterOne(s.runnable, gone, k);
    var d := DropKeys(s, gone);
    assert d.active - {k} == s.active - (gone + {k});
    assert d.heads - {k} == s.heads - (gone + {k});
    assert IndexWithout(d.byHead, d.heads, k) == DropKeys(s, gone + {k}).byHead by {
      IndexDropOne(s.heads, s.byHead, gone, k);
    }
  }

  lemma IndexDropOne(heads: Heads, byHead: HeadIndex, gone: set<QueueKey>, k: QueueKey)
    requires Inverse(heads, byHead)
    ensures IndexWithout(map p | p in byHead && byHead[p] !in gone :: byHead[p], heads - gone, k) ==
            map p | p in byHead && byHead[p] !in gone + {k} :: byHead[p]
  {
  }

  lemma {:induction false} FilterNone(r: seq<QueueKey>)
    ensures FilterOut(r, {}) == r
  {
    if r != [] {
      FilterNone(r[1..]);
      assert r == [r[0]] + r[1..];
    }
  }

  lemma DropNone(s: Topology)
    ensures DropKeys(s, {}) == s
  {
    FilterNone(s.runnable);
    assert s.active - {} == s.active;
    assert s.heads - {} == s.heads;
    assert (map p | p in s.byHead && s.byHead[p] !in {} :: s.byHead[p]) == s.byHead;
  }

  lemma RunnableDrop(r: seq<QueueKey>, active: set<QueueKey>, gone: set<QueueKey>)
    requires RunnableExact(r, active)
    ensures RunnableExact(FilterOut(r, gone), active - gone)
  {
    FilterKeepsOrder(r, gone);
    forall x ensures x in FilterOut(r, gone) <==> x in active - gone {
      FilterMembers(r, gone, x);
    }
  }

  lemma InverseDrop(s: Topology, gone: set<QueueKey>)
    requires Inverse(s.heads, s.byHead)
    ensures Inverse(DropKeys(s, gone).heads, DropKeys(s, gone).byHead)
  {
  }

  lemma RevokeKeeps(s: Topology, deferred: set<QueueKey>, tp: TopicPartition)
    requires Good(s, deferred)
    ensures Good(Revoke(s, tp), deferred - KeysOf(s.queues, tp))
  {
    var gone := KeysOf(s.queues, tp);
    RunnableDrop(s.runnable, s.active, gone);
    InverseDrop(s, gone);
    ExactDrop(s.queues, s.heads, deferred, gone);
    assert Revoke(s, tp).queues == s.queues - gone;
    UniqueWithout(s.queues, Revoke(s, tp).queues);
  }

  lemma ExactDrop(queues: Queues, heads: Heads, deferred: set<QueueKey>, gone: set<QueueKey>)
    requires HeadsExactOutside(queues, heads, deferred)
    ensures HeadsExactOutside(queues - gone, heads - gone, deferred - gone)
  {
  }

  /** The number of items queued in all queues of the map. */
  ghost function Total(queues: Queues): nat
    decreases |queues|
  {
    if queues == map[] then 0
    else
      var k := SomeKey(queues);
      assert (queues - {k}).Keys < queues.Keys;
      |queues[k]| + Total(queues - {k})
  }

  ghost function SomeKey(queues: Queues): (k: QueueKey)
    requires queues != map[]
    ensures k in queues
  {
    assert queues.Keys != {};
    var k: QueueKey :| k in queues; k
  }

  lemma {:induction false} TotalWithout(queues: Queues, k: QueueKey)
    requires k in queues
    ensures Total(queues) == |queues[k]| + Total(queues - {k})
    decreases |queues|
  {
    var m := SomeKey(queues);
    if m != k {
      var less, other := queues - {m}, queues - {k};
      assert less.Keys < queues.Keys && other.Keys < queues.Keys;
      assert |less| < |queues| && |other| < |queues| by {
        assert |less.Keys| < |queues.Keys| && |other.Keys| < |queues.Keys|;
      }
      TotalWithout(less, k);
      TotalWithout(other, m);
      assert less - {k} == other - {m};
    }
  }

  // ----- picking the queue that blocks commits

  /** The partition's first gap, when it has one. */
  type Gaps = seq<(TopicPartition, Option<int>)>

  /** By the queues alone: `k` is active and eligible, and its head is the gap start of entry `i`. */
  predicate Blocks(s: Topology, gaps: Gaps, eligible: QueueKey -> bool, i: nat, k: QueueKey) {
    && i < |gaps| && gaps[i].1.Some? && k.0 == gaps[i].0
    && QueueOf(s, k) != [] && QueueOf(s, k)[0].offset == gaps[i].1.value
    && k in s.active && eligible(k)
  }

  /** By the index: the queue found under the gap start of entry `i`, if it may run. */
  function Indexed(s: Topology, gaps: Gaps, eligible: QueueKey -> bool, i: nat): Option<QueueKey>
    requires i < |gaps|
  {
    if gaps[i].1.None? || (gaps[i].0, gaps[i].1.value) !in s.byHead then None
    else
      var k := s.byHead[(gaps[i].0, gaps[i].1.value)];
      if k in s.active && eligible(k) then Some(k) else None
  }

  /**
   Every index entry is right and every runnable key has one; a queue may be missing from
   the indexes. This is all a pick relies on, so it may happen while keys are deferred.
   */
  ghost predicate Reliable(s: Topology) {
    && (forall l :: l in s.heads ==> l in s.queues && s.queues[l] != [] && s.heads[l] == s.queues[l][0].offset)
    && Inverse(s.heads, s.byHead)
    && RunnableExact(s.runnable, s.active)
    && s.active <= s.heads.Keys
  }

  /** Deferred keys that are out of line do not disturb a pick. */
  lemma OutOfLineIsReliable(s: Topology, deferred: set<QueueKey>)
    requires AgreeOutside(s, deferred)
    ensures Reliable(s) <==> s.active !! deferred
  {
    if s.active !! deferred {
      assert s.active <= s.heads.Keys;
    }
  }

  /** The index finds exactly the queue a plain scan would find. */
  lemma IndexFindsBlocking(s: Topology, gaps: Gaps, eligible: QueueKey -> bool, i: nat, k: QueueKey)
    requires Reliable(s) && i < |gaps|
    ensures Blocks(s, gaps, eligible, i, k) <==> Indexed(s, gaps, eligible, i) == Some(k)
  {
  }

  datatype Best = NoBest | Best(index: nat, key: QueueKey, offset: int)

  function BestBlocking(s: Topology, gaps: Gaps, eligible: QueueKey -> bool, upTo: nat): Best
    requires upTo <= |gaps|
  {
    if upTo == 0 then NoBest
    else
      var best := BestBlocking(s, gaps, eligible, upTo - 1);
      match Indexed(s, gaps, eligible, upTo - 1)
      case None => best
      case Some(k) =>
        var start := gaps[upTo - 1].1.value;
        if best.NoBest? || start < best.offset then Best(upTo - 1, k, start) else best
  }

  function PickBlocking(s: Topology, gaps: Gaps, eligible: QueueKey -> bool): (Topology, Option<QueueKey>) {
    match BestBlocking(s, gaps, eligible, |gaps|)
    case NoBest => (s, None)
    case Best(_, k, _) => (s.(active := s.active - {k}, runnable := Without(s.runnable, k)), Some(k))
  }

  /** Entry `at` with queue `key` comes before every other blocking entry among the first `upTo`. */
  ghost predicate FirstLowest(s: Topology, gaps: Gaps, eligible: QueueKey -> bool, upTo: nat, at: nat, key: QueueKey) {
    && at < upTo && Blocks(s, gaps, eligible, at, key)
    && forall i: nat, k :: i < upTo && Blocks(s, gaps, eligible, i, k) ==> Precedes(gaps, at, i)
  }

  predicate Precedes(gaps: Gaps, at: nat, i: nat) {
    && at < |gaps| && i < |gaps| && gaps[at].1.Some? && gaps[i].1.Some?
    && (gaps[at].1.value < gaps[i].1.value || (gaps[at].1.value == gaps[i].1.value && at <= i))
  }

  ghost predicate NoneBlocks(s: Topology, gaps: Gaps, eligible: QueueKey -> bool, upTo: nat) {
    forall i: nat, k :: i < upTo ==> !Blocks(s, gaps, eligible, i, k)
  }

  ghost predicate LowestBlocking(s: Topology, gaps: Gaps, eligible: QueueKey -> bool, upTo: nat, best: Best) {
    match best
    case NoBest => NoneBlocks(s, gaps, eligible, upTo)
    case Best(at, key, offset) =>
      FirstLowest(s, gaps, eligible, upTo, at, key) && at < |gaps| && gaps[at].1 == Some(offset)
  }

  lemma {:induction false} BestIsLowest(s: Topology, gaps: Gaps, eligible: QueueKey -> bool, upTo: nat)
    requires Reliable(s) && upTo <= |gaps|
    ensures LowestBlocking(s, gaps, eligible, upTo, BestBlocking(s, gaps, eligible, upTo))
  {
    if upTo > 0 {
      BestIsLowest(s, gaps, eligible, upTo - 1);
      forall k ensures Blocks(s, gaps, eligible, upTo - 1, k) <==> Indexed(s, gaps, eligible, upTo - 1) == Some(k) {
        IndexFindsBlocking(s, gaps, eligible, upTo - 1, k);
      }
      OneMoreEntry(s, gaps, eligible, upTo);
    }
  }

  lemma OneMoreEntry(s: Topology, gaps: Gaps, eligible: QueueKey -> bool, upTo: nat)
    requires 0 < upTo <= |gaps|
    requires LowestBlocking(s, gaps, eligible, upTo - 1, BestBlocking(s, gaps, eligible, upTo - 1))
    requires forall k :: Blocks(s, gaps, eligible, upTo - 1, k) <==> Indexed(s, gaps, eligible, upTo - 1) == Some(k)
    ensures LowestBlocking(s, gaps, eligible, upTo, BestBlocking(s, gaps, eligible, upTo))
  {
    var last := upTo - 1;
    var found := Indexed(s, gaps, eligible, last);
    var best := BestBlocking(s, gaps, eligible, last);
    var now := BestBlocking(s, gaps, eligible, upTo);
    forall i: nat, k | i < upTo && Blocks(s, gaps, eligible, i, k)
      ensures now.Best? && Precedes(gaps, now.index, i)
    {
      if i < last {
        assert best.Best? && Precedes(gaps, best.index, i);
        assert now.Best? && Precedes(gaps, now.index, best.index);
      } else {
        assert Blocks(s, gaps, eligible, last, k);
        assert found == Some(k);
      }
    }
    if found.Some? {
      assert Blocks(s, gaps, eligible, last, found.value);
    }
  }

  /**
   The blocking pick is the plain scan: the active eligible queue whose head is the
   smallest gap start, the first such partition on a tie; None exactly when there is none.
   */
  lemma BlockingPickIsPlainScan(s: Topology, gaps: Gaps, eligible: QueueKey -> bool)
    requires Reliable(s)
    ensures PickBlocking(s, gaps, eligible).1.None? <==> NoneBlocks(s, gaps, eligible, |gaps|)
    ensures forall key :: PickBlocking(s, gaps, eligible).1 == Some(key) ==>
              exists at: nat :: FirstLowest(s, gaps, eligible, |gaps|, at, key)
  {
    BestIsLowest(s, gaps, eligible, |gaps|);
    var best := BestBlocking(s, gaps, eligible, |gaps|);
    if best.Best? {
      assert FirstLowest(s, gaps, eligible, |gaps|, best.index, best.key);
      assert Blocks(s, gaps, eligible, best.index, best.key);
    }
  }

  lemma PickBlockingKeeps(s: Topology, deferred: set<QueueKey>, gaps: Gaps, eligible: QueueKey -> bool)
    requires Good(s, deferred)
    ensures Good(PickBlocking(s, gaps, eligible).0, deferred)
  {
    var best := BestBlocking(s, gaps, eligible, |gaps|);
    if best.Best? {
      RunnableWithout(s.runnable, s.active, best.key);
    }
  }

  // ----- picking the next runnable queue

  function PickNextFrom(s: Topology, eligible: QueueKey -> bool, attempts: nat): (Topology, Option<QueueKey>)
    decreases attempts
  {
    if attempts == 0 || s.runnable == [] then (s, None)
    else
      var k, popped := s.runnable[0], s.(runnable := s.runnable[1..]);
      if k !in s.active then PickNextFrom(popped, eligible, attempts - 1)
      else if QueueOf(s, k) == [] then PickNextFrom(Deactivate(popped, k), eligible, attempts - 1)
      else if !eligible(k) then
        PickNextFrom(popped.(runnable := Appended(popped.runnable, k)), eligible, attempts - 1)
      else (popped.(active := popped.active - {k}), Some(k))
  }

  function PickNext(s: Topology, eligible: QueueKey -> bool): (Topology, Option<QueueKey>) {
    PickNextFrom(s, eligible, |s.runnable|)
  }

  /** Position of the first eligible key among the first `n`, or `n`. */
  function FirstEligible(r: seq<QueueKey>, eligible: QueueKey -> bool, n: nat): (i: nat)
    requires n <= |r|
    ensures i <= n && (i < n ==> eligible(r[i])) && forall j :: 0 <= j < i ==> !eligible(r[j])
    decreases n
  {
    if n == 0 then 0
    else if eligible(r[0]) then 0
    else 1 + FirstEligible(r[1..], eligible, n - 1)
  }

  ghost predicate AllRunnable(s: Topology, r: seq<QueueKey>) {
    forall i :: 0 <= i < |r| ==> r[i] in s.active && QueueOf(s, r[i]) != []
  }

  /** What the pick amounts to: the first eligible key among the first `n`, the passed ones behind. */
  function NextResult(s: Topology, eligible: QueueKey -> bool, n: nat): (Topology, Option<QueueKey>)
    requires n <= |s.runnable|
  {
    var r, i := s.runnable, FirstEligible(s.runnable, eligible, n);
    if i < n then (s.(runnable := r[i + 1..] + r[..i], active := s.active - {r[i]}), Some(r[i]))
    else (s.(runnable := r[n..] + r[..n]), None)
  }

  lemma {:induction false} NextPick(s: Topology, eligible: QueueKey -> bool, n: nat)
    requires NoRepeats(s.runnable) && AllRunnable(s, s.runnable) && n <= |s.runnable|
    ensures PickNextFrom(s, eligible, n) == NextResult(s, eligible, n)
    decreases n
  {
    if n == 0 || eligible(s.runnable[0]) {
      PickAtOnce(s, eligible, n);
    } else {
      PassOver(s, eligible, n);
      ResultPassesOver(s, eligible, n);
      NextPick(s.(runnable := s.runnable[1..] + [s.runnable[0]]), eligible, n - 1);
    }
  }

  lemma PickAtOnce(s: Topology, eligible: QueueKey -> bool, n: nat)
    requires AllRunnable(s, s.runnable) && n <= |s.runnable| && (n == 0 || eligible(s.runnable[0]))
    ensures PickNextFrom(s, eligible, n) == NextResult(s, eligible, n)
  {
    var r := s.runnable;
    assert r[0..] + r[..0] == r;
    assert n > 0 ==> r[1..] + r[..0] == r[1..];
  }

  lemma ResultPassesOver(s: Topology, eligible: QueueKey -> bool, n: nat)
    requires 0 < n <= |s.runnable| && !eligible(s.runnable[0])
    ensures NextResult(s, eligible, n) ==
            NextResult(s.(runnable := s.runnable[1..] + [s.runnable[0]]), eligible, n - 1)
  {
    var r := s.runnable;
    SameFirst(r[1..], [r[0]], eligible, n - 1);
    Turned(r, n, FirstEligible(r, eligible, n));
  }

  lemma PassOver(s: Topology, eligible: QueueKey -> bool, n: nat)
    requires NoRepeats(s.runnable) && AllRunnable(s, s.runnable) && 0 < n <= |s.runnable|
    requires !eligible(s.runnable[0])
    ensures var s' := s.(runnable := s.runnable[1..] + [s.runnable[0]]);
            && PickNextFrom(s, eligible, n) == PickNextFrom(s', eligible, n - 1)
            && NoRepeats(s'.runnable) && AllRunnable(s', s'.runnable)
  {
  }

  lemma {:induction false} SameFirst(r: seq<QueueKey>, more: seq<QueueKey>, eligible: QueueKey -> bool, n: nat)
    requires n <= |r|
    ensures FirstEligible(r + more, eligible, n) == FirstEligible(r, eligible, n)
    decreases n
  {
    if n > 0 {
      assert (r + more)[1..] == r[1..] + more;
      SameFirst(r[1..], more, eligible, n - 1);
    }
  }

  lemma Turned(r: seq<QueueKey>, n: nat, i: nat)
    requires 0 < n <= |r| && 0 < i <= n
    ensures var t := r[1..] + [r[0]];
            && t[n - 1..] + t[..n - 1] == r[n..] + r[..n]
            && (i < n ==> t[i - 1] == r[i] && t[i..] + t[..i - 1] == r[i + 1..] + r[..i])
  {
  }

  /** `k` at position `i` was the first eligible key, and `after` is `s` with `k` taken out of line. */
  ghost predicate FirstInLine(s: Topology, eligible: QueueKey -> bool, after: Topology, i: nat, k: QueueKey) {
    var r := s.runnable;
    && i < |r| && r[i] == k && eligible(k) && (forall j :: 0 <= j < i ==> !eligible(r[j]))
    && after == s.(runnable := r[i + 1..] + r[..i], active := s.active - {k})
  }

  /**
   The next pick is the first eligible key in FIFO order; the keys it passed over go to
   the back in their order. It is None, with the order unchanged, exactly when none is eligible.
   */
  lemma NextPickIsFirstEligible(s: Topology, eligible: QueueKey -> bool)
    requires Reliable(s)
    ensures var r := s.runnable;
            match PickNext(s, eligible).1
            case None => PickNext(s, eligible).0 == s && forall k :: k in r ==> !eligible(k)
            case Some(k) => exists i: nat :: FirstInLine(s, eligible, PickNext(s, eligible).0, i, k)
  {
    var r := s.runnable;
    assert forall i :: 0 <= i < |r| ==> r[i] in r;
    NextPick(s, eligible, |r|);
    var i := FirstEligible(r, eligible, |r|);
    assert r[|r|..] + r[..|r|] == r;
    if i < |r| {
      assert FirstInLine(s, eligible, PickNext(s, eligible).0, i, r[i]);
    }
  }

  /** The line after its first key was passed over, or dropped because its queue is empty. */
  function PassedOver(s: Topology): Topology
    requires s.runnable != []
  {
    var rest, k := s.runnable[1..], s.runnable[0];
    if QueueOf(s, k) == [] then Deactivate(s, k) else s.(runnable := rest + [k])
  }

  lemma PickStep(s: Topology, eligible: QueueKey -> bool, n: nat)
    requires RunnableExact(s.runnable, s.active) && s.runnable != [] && n > 0
    ensures var r, k := s.runnable, s.runnable[0];
            PickNextFrom(s, eligible, n) ==
            if QueueOf(s, k) != [] && eligible(k) then (s.(runnable := r[1..], active := s.active - {k}), Some(k))
            else PickNextFrom(PassedOver(s), eligible, n - 1)
  {
    FirstInRunnable(s.runnable, s.active);
    assert Deactivate(s.(runnable := s.runnable[1..]), s.runnable[0]) == Deactivate(s, s.runnable[0]);
  }

  lemma PassedAgrees(s: Topology, deferred: set<QueueKey>)
    requires AgreeOutside(s, deferred) && s.runnable != []
    ensures AgreeOutside(PassedOver(s), deferred)
    ensures AgreeOutside(s.(runnable := s.runnable[1..], active := s.active - {s.runnable[0]}), deferred)
  {
    FirstInRunnable(s.runnable, s.active);
    AgreeIsAgreeExcept(s, deferred, s.runnable[0]);
    DeactivatePieces(s, deferred, s.runnable[0]);
  }

  lemma {:induction false} PickNextAgrees(s: Topology, deferred: set<QueueKey>, eligible: QueueKey -> bool, n: nat)
    requires AgreeOutside(s, deferred)
    ensures AgreeOutside(PickNextFrom(s, eligible, n).0, deferred)
    decreases n
  {
    if n > 0 && s.runnable != [] {
      PickStep(s, eligible, n);
      PassedAgrees(s, deferred);
      PickNextAgrees(PassedOver(s), deferred, eligible, n - 1);
    }
  }

  lemma PickNextKeeps(s: Topology, deferred: set<QueueKey>, eligible: QueueKey -> bool)
    requires Good(s, deferred)
    ensures Good(PickNext(s, eligible).0, deferred)
  {
    PickNextAgrees(s, deferred, eligible, |s.runnable|);
    PickNextKeepsQueues(s, eligible, |s.runnable|);
  }

  lemma FirstInRunnable(r: seq<QueueKey>, active: set<QueueKey>)
    requires RunnableExact(r, active) && r != []
    ensures r[0] in active && r[0] !in r[1..]
    ensures Without(r, r[0]) == Without(r[1..], r[0]) == r[1..]
    ensures RunnableExact(r[1..], active - {r[0]})
    ensures RunnableExact(r[1..] + [r[0]], active)
  {
    WithoutAbsent(r[1..], r[0]);
    assert r == [r[0]] + r[1..];
  }

  lemma {:induction false} WithoutAbsent(r: seq<QueueKey>, k: QueueKey)
    requires k !in r
    ensures Without(r, k) == r
  {
    if r != [] {
      WithoutAbsent(r[1..], k);
      assert r == [r[0]] + r[1..];
    }
  }

  // ----- whole runs

  datatype Op =
    | Assigned(tp: TopicPartition)
    | Revoked(tp: TopicPartition)
    | Enqueued(key: QueueKey, items: seq<WorkItem>)
    | Dequeued(key: QueueKey, count: int)
    | DequeuedOne(key: QueueKey)
    | Refreshed(key: QueueKey)
    | Cleaned(key: QueueKey)
    | Deactivated(key: QueueKey)
    | Activated(key: QueueKey)
    | PickedBlocking(gaps: Gaps, eligible: QueueKey -> bool)
    | PickedNext(eligible: QueueKey -> bool)

  function Do(s: Topology, op: Op): Topology {
    match op
    case Assigned(tp) => Assign(s, tp)
    case Revoked(tp) => Revoke(s, tp)
    case Enqueued(k, items) => EnqueueBatch(s, k, items)
    case Dequeued(k, count) => DequeueItems(s, k, count).0
    case DequeuedOne(k) => DequeueItem(s, k).0
    case Refreshed(k) => Refresh(s, k)
    case Cleaned(k) => CleanupEmpty(s, k)
    case Deactivated(k) => Deactivate(s, k)
    case Activated(k) => Activate(s, k)
    case PickedBlocking(gaps, eligible) => PickBlocking(s, gaps, eligible).0
    case PickedNext(eligible) => PickNext(s, eligible).0
  }

  function Run(s: Topology, ops: seq<Op>): Topology
    decreases |ops|
  {
    if ops == [] then s else Run(Do(s, ops[0]), ops[1..])
  }

  function AfterEnqueue(s: Topology, deferred: set<QueueKey>, k: QueueKey, items: seq<WorkItem>): set<QueueKey> {
    if k.0 in s.owned && QueueOf(s, k) == [] && items != [] then deferred - {k} else deferred
  }

  /**
   The keys deferred after an operation. Taking a key with work queued out of the indexes, or
   putting one without a head entry in line, defers it; whatever rebuilds its entries ends that.
   */
  function Defer(s: Topology, deferred: set<QueueKey>, op: Op): set<QueueKey> {
    match op
    case Deactivated(k) => if QueueOf(s, k) == [] then deferred - {k} else deferred + {k}
    case Activated(k) => if k in s.heads then deferred else deferred + {k}
    case Enqueued(k, items) => AfterEnqueue(s, deferred, k, items)
    case Dequeued(k, count) => if count <= 0 then deferred else deferred - {k}
    case DequeuedOne(k) => deferred - {k}
    case Refreshed(k) => deferred - {k}
    case Cleaned(k) => if k in s.queues && s.queues[k] == [] then deferred - {k} else deferred
    case Revoked(tp) => deferred - KeysOf(s.queues, tp)
    case _ => deferred
  }

  function Deferred(s: Topology, deferred: set<QueueKey>, ops: seq<Op>): set<QueueKey>
    decreases |ops|
  {
    if ops == [] then deferred else Deferred(Do(s, ops[0]), Defer(s, deferred, ops[0]), ops[1..])
  }

  /** Offsets are not queued twice in a partition, and only drained partitions are assigned. */
  ghost predicate Lawful(s: Topology, ops: seq<Op>)
    decreases |ops|
  {
    ops == [] ||
    (&& (ops[0].Enqueued? ==> Fresh(s.queues, ops[0].key, ops[0].items))
     && (ops[0].Assigned? ==> forall k :: k in s.queues && k.0 == ops[0].tp ==> s.queues[k] == [])
     && Lawful(Do(s, ops[0]), ops[1..]))
  }

  lemma RefreshKeeps(s: Topology, deferred: set<QueueKey>, k: QueueKey)
    requires Good(s, deferred)
    ensures Good(Refresh(s, k), deferred - {k})
  {
    AgreeIsAgreeExcept(s, deferred, k);
    RefreshAgrees(s, deferred, k);
  }

  lemma CleanupKeeps(s: Topology, deferred: set<QueueKey>, k: QueueKey)
    requires Good(s, deferred) && k in s.queues && s.queues[k] == []
    ensures Good(CleanupEmpty(s, k), deferred - {k})
  {
    AgreeIsAgreeExcept(s, deferred, k);
    CleanupAgrees(s, deferred, k);
    UniqueWithout(s.queues, CleanupEmpty(s, k).queues);
  }

  lemma QueueOpKeeps(s: Topology, deferred: set<QueueKey>, op: Op)
    requires Good(s, deferred) && Lawful(s, [op])
    requires op.Assigned? || op.Revoked? || op.Enqueued? || op.Dequeued? || op.DequeuedOne? || op.Cleaned?
    ensures Good(Do(s, op), Defer(s, deferred, op))
  {
    match op {
      case Assigned(tp) => AssignKeeps(s, deferred, tp);
      case Revoked(tp) => RevokeKeeps(s, deferred, tp);
      case Enqueued(k, items) => EnqueueKeeps(s, deferred, k, items);
      case Dequeued(k, count) => DequeueKeeps(s, deferred, k, count);
      case DequeuedOne(k) =>
        DequeueItemIsOne(s, k);
        DequeueKeeps(s, deferred, k, 1);
      case Cleaned(k) =>
        if k in s.queues && s.queues[k] == [] {
          CleanupKeeps(s, deferred, k);
        }
    }
  }

  lemma IndexOpKeeps(s: Topology, deferred: set<QueueKey>, op: Op)
    requires Good(s, deferred)
    requires op.Refreshed? || op.Deactivated? || op.Activated? || op.PickedBlocking? || op.PickedNext?
    ensures Good(Do(s, op), Defer(s, deferred, op))
  {
    match op {
      case Refreshed(k) => RefreshKeeps(s, deferred, k);
      case Deactivated(k) => DeactivateKeeps(s, deferred, k);
      case Activated(k) => ActivateKeeps(s, deferred, k);
      case PickedBlocking(gaps, eligible) => PickBlockingKeeps(s, deferred, gaps, eligible);
      case PickedNext(eligible) => PickNextKeeps(s, deferred, eligible);
    }
  }

  lemma {:induction false} RunKeeps(s: Topology, deferred: set<QueueKey>, ops: seq<Op>)
    requires Good(s, deferred) && Lawful(s, ops)
    ensures Good(Run(s, ops), Deferred(s, deferred, ops))
    decreases |ops|
  {
    if ops != [] {
      var op := ops[0];
      if op.Refreshed? || op.Deactivated? || op.Activated? || op.PickedBlocking? || op.PickedNext? {
        IndexOpKeeps(s, deferred, op);
      } else {
        assert Lawful(s, [op]);
        QueueOpKeeps(s, deferred, op);
      }
      RunKeeps(Do(s, op), Defer(s, deferred, op), ops[1..]);
    }
  }

  /**
   After every lawful run the indexes agree with the queues outside the deferred keys, and
   everywhere when none is deferred.
   */
  lemma IndexesAlwaysAgree(ops: seq<Op>)
    requires Lawful(EMPTY, ops)
    ensures var s, deferred := Run(EMPTY, ops), Deferred(EMPTY, {}, ops);
            && AgreeOutside(s, deferred)
            && (deferred == {} ==> Agree(s))
            && (s.active !! deferred ==> Reliable(s))
  {
    assert Good(EMPTY, {});
    RunKeeps(EMPTY, {}, ops);
    var s, deferred := Run(EMPTY, ops), Deferred(EMPTY, {}, ops);
    NoneDeferredIsAgree(s);
    OutOfLineIsReliable(s, deferred);
  }

  lemma OpKeepsOutOfLine(s: Topology, deferred: set<QueueKey>, op: Op)
    requires s.active !! deferred && !op.Activated?
    ensures Do(s, op).active !! Defer(s, deferred, op)
  {
    if op.PickedNext? {
      PickNextKeepsQueues(s, op.eligible, |s.runnable|);
    }
  }

  lemma {:induction false} RunKeepsOutOfLine(s: Topology, deferred: set<QueueKey>, ops: seq<Op>)
    requires s.active !! deferred && forall i :: 0 <= i < |ops| ==> !ops[i].Activated?
    ensures Run(s, ops).active !! Deferred(s, deferred, ops)
    decreases |ops|
  {
    if ops != [] {
      OpKeepsOutOfLine(s, deferred, ops[0]);
      RunKeepsOutOfLine(Do(s, ops[0]), Defer(s, deferred, ops[0]), ops[1..]);
    }
  }

  /**
   As long as keys get in line only through a refresh, every pick of every lawful run can
   rely on the indexes, whatever is deferred meanwhile.
   */
  lemma PicksAlwaysReliable(ops: seq<Op>)
    requires Lawful(EMPTY, ops) && forall i :: 0 <= i < |ops| ==> !ops[i].Activated?
    ensures Reliable(Run(EMPTY, ops))
  {
    RunKeepsOutOfLine(EMPTY, {}, ops);
    IndexesAlwaysAgree(ops);
  }

  // ----- per-key order and conservation

  function Accepted(s: Topology, op: Op, k: QueueKey): seq<WorkItem> {
    if op.Enqueued? && op.key == k && k.0 in s.owned then op.items else []
  }

  function TakenBy(s: Topology, op: Op, k: QueueKey): seq<WorkItem> {
    if op.Dequeued? && op.key == k then DequeueItems(s, k, op.count).1
    else if op.DequeuedOne? && op.key == k && DequeueItem(s, k).1.Some? then [DequeueItem(s, k).1.value]
    else []
  }

  function AllAccepted(s: Topology, ops: seq<Op>, k: QueueKey): seq<WorkItem>
    decreases |ops|
  {
    if ops == [] then [] else Accepted(s, ops[0], k) + AllAccepted(Do(s, ops[0]), ops[1..], k)
  }

  function AllTaken(s: Topology, ops: seq<Op>, k: QueueKey): seq<WorkItem>
    decreases |ops|
  {
    if ops == [] then [] else TakenBy(s, ops[0], k) + AllTaken(Do(s, ops[0]), ops[1..], k)
  }

  predicate Rebalances(op: Op, tp: TopicPartition) {
    (op.Assigned? || op.Revoked?) && op.tp == tp
  }

  lemma {:induction false} PickNextKeepsQueues(s: Topology, eligible: QueueKey -> bool, n: nat)
    ensures PickNextFrom(s, eligible, n).0.queues == s.queues
    ensures PickNextFrom(s, eligible, n).0.owned == s.owned
    ensures PickNextFrom(s, eligible, n).0.active <= s.active
    decreases n
  {
    if n > 0 && s.runnable != [] {
      var k, popped := s.runnable[0], s.(runnable := s.runnable[1..]);
      PickNextKeepsQueues(popped, eligible, n - 1);
      PickNextKeepsQueues(Deactivate(popped, k), eligible, n - 1);
      PickNextKeepsQueues(popped.(runnable := Appended(popped.runnable, k)), eligible, n - 1);
    }
  }

  lemma DequeueConserves(s: Topology, key: QueueKey, count: int, k: QueueKey)
    ensures QueueOf(s, k) == (if key == k then DequeueItems(s, k, count).1 else [])
                             + QueueOf(DequeueItems(s, key, count).0, k)
  {
  }

  lemma EnqueueConserves(s: Topology, key: QueueKey, items: seq<WorkItem>, k: QueueKey)
    ensures QueueOf(EnqueueBatch(s, key, items), k) ==
            QueueOf(s, k) + (if key == k && k.0 in s.owned then items else [])
  {
  }

  lemma StepConserves(s: Topology, op: Op, k: QueueKey)
    requires !Rebalances(op, k.0)
    ensures QueueOf(s, k) + Accepted(s, op, k) == TakenBy(s, op, k) + QueueOf(Do(s, op), k)
  {
    match op {
      case Enqueued(key, items) => EnqueueConserves(s, key, items, k);
      case Dequeued(key, count) => DequeueConserves(s, key, count, k);
      case DequeuedOne(key) =>
        DequeueItemIsOne(s, key);
        DequeueConserves(s, key, 1, k);
      case PickedNext(eligible) => PickNextKeepsQueues(s, eligible, |s.runnable|);
      case _ => assert QueueOf(Do(s, op), k) == QueueOf(s, k);
    }
  }

  /**
   Between rebalances of its partition, what was taken from a queue followed by what is
   still queued is what was queued at first followed by everything accepted, in order.
   */
  lemma {:induction false} OrderIsConserved(s: Topology, ops: seq<Op>, k: QueueKey)
    requires forall i :: 0 <= i < |ops| ==> !Rebalances(ops[i], k.0)
    ensures QueueOf(s, k) + AllAccepted(s, ops, k) == AllTaken(s, ops, k) + QueueOf(Run(s, ops), k)
    decreases |ops|
  {
    if ops != [] {
      var next := Do(s, ops[0]);
      StepConserves(s, ops[0], k);
      OrderIsConserved(next, ops[1..], k);
      var a, t, rest := Accepted(s, ops[0], k), TakenBy(s, ops[0], k), AllAccepted(next, ops[1..], k);
      Regroup(QueueOf(s, k), a, rest, t, QueueOf(next, k),
              AllTaken(next, ops[1..], k), QueueOf(Run(s, ops), k));
    }
  }

  lemma Regroup<T>(q: seq<T>, a: seq<T>, rest: seq<T>, t: seq<T>, q': seq<T>, taken: seq<T>, last: seq<T>)
    requires q + a == t + q' && q' + rest == taken + last
    ensures q + (a + rest) == (t + taken) + last
  {
    calc {
      q + (a + rest);
      (q + a) + rest;
      t + (q' + rest);
      t + (taken + last);
      (t + taken) + last;
    }
  }

  // ----- what single operations achieve

  /** A dequeue takes the given number of items, or all there are, and an emptied queue is gone. */
  lemma DequeueTakesCount(s: Topology, k: QueueKey, count: int)
    ensures var q, (s', items) := QueueOf(s, k), DequeueItems(s, k, count);
            && |items| == (if count <= 0 then 0 else if count < |q| then count else |q|)
            && (count > 0 && q != [] && |items| == |q| ==> k !in s'.queues)
            && (forall l :: l != k ==> (l in s'.queues <==> l in s.queues) && QueueOf(s', l) == QueueOf(s, l))
            && s'.owned == s.owned
  {
  }

  /** An assigned partition accepts items and has nothing queued; other partitions are not touched. */
  lemma AssignTakesEffect(s: Topology, tp: TopicPartition, k: QueueKey)
    ensures tp in Assign(s, tp).owned && (forall p :: p != tp ==> (p in Assign(s, tp).owned <==> p in s.owned))
    ensures if k.0 == tp then k !in Assign(s, tp).queues
            else (k in Assign(s, tp).queues <==> k in s.queues) && QueueOf(Assign(s, tp), k) == QueueOf(s, k)
  {
  }

  /** A revoked partition refuses items and has nothing queued; other partitions are not touched. */
  lemma RevokeTakesEffect(s: Topology, tp: TopicPartition, k: QueueKey)
    ensures tp !in Revoke(s, tp).owned && (forall p :: p != tp ==> (p in Revoke(s, tp).owned <==> p in s.owned))
    ensures if k.0 == tp then k !in Revoke(s, tp).queues
            else (k in Revoke(s, tp).queues <==> k in s.queues) && QueueOf(Revoke(s, tp), k) == QueueOf(s, k)
    ensures k.0 != tp ==> (k in Revoke(s, tp).active <==> k in s.active)
  {
  }

  /** `r'` is `r` without `k`, in the same order. */
  ghost predicate OrderKept(r: seq<QueueKey>, k: QueueKey, r': seq<QueueKey>) {
    (k !in r && r' == r) || exists i :: 0 <= i < |r| && r[i] == k && r' == r[..i] + r[i + 1..]
  }

  lemma {:induction false} WithoutAt(r: seq<QueueKey>, k: QueueKey, i: nat)
    requires NoRepeats(r) && i < |r| && r[i] == k
    ensures Without(r, k) == r[..i] + r[i + 1..]
  {
    if i == 0 {
      assert k !in r[1..];
      WithoutAbsent(r[1..], k);
      assert r[..0] + r[1..] == r[1..];
    } else {
      assert r[0] != k;
      WithoutAt(r[1..], k, i - 1);
      assert [r[0]] + (r[1..][..i - 1] + r[1..][i..]) == r[..i] + r[i + 1..];
    }
  }

  lemma WithoutKeepsLine(r: seq<QueueKey>, k: QueueKey)
    requires NoRepeats(r)
    ensures OrderKept(r, k, Without(r, k))
  {
    if k in r {
      var i :| 0 <= i < |r| && r[i] == k;
      WithoutAt(r, k, i);
    } else {
      WithoutAbsent(r, k);
    }
  }

  /** A refreshed queue with work goes to the back of the line; the others keep their order. */
  lemma RefreshGoesToTheBack(s: Topology, k: QueueKey)
    requires RunnableExact(s.runnable, s.active) && QueueOf(s, k) != []
    ensures var r := Refresh(s, k).runnable;
            r != [] && r[|r| - 1] == k && OrderKept(s.runnable, k, r[..|r| - 1])
  {
    WithoutKeepsLine(s.runnable, k);
    WithoutMembers(s.runnable, k, k);
    var rest := Without(s.runnable, k);
    assert Refresh(s, k).runnable == rest + [k];
    assert (rest + [k])[..|rest|] == rest;
  }

  /** A blocking pick takes its key out of line and leaves the order of the others. */
  lemma BlockingPickLeavesLine(s: Topology, gaps: Gaps, eligible: QueueKey -> bool)
    requires RunnableExact(s.runnable, s.active) && PickBlocking(s, gaps, eligible).1.Some?
    ensures var (s', picked) := PickBlocking(s, gaps, eligible);
            && OrderKept(s.runnable, picked.value, s'.runnable) && s'.active == s.active - {picked.value}
            && s'.queues == s.queues && s'.heads == s.heads && s'.byHead == s.byHead
  {
    WithoutKeepsLine(s.runnable, PickBlocking(s, gaps, eligible).1.value);
  }

  /** Items reach a queue exactly when its partition is assigned; a queue that held work keeps its place in line. */
  lemma EnqueueTakesEffect(s: Topology, k: QueueKey, items: seq<WorkItem>)
    ensures var s' := EnqueueBatch(s, k, items);
            && QueueOf(s', k) == (if k.0 in s.owned then QueueOf(s, k) + items else QueueOf(s, k))
            && (forall l :: l != k ==> QueueOf(s', l) == QueueOf(s, l))
            && (QueueOf(s, k) != [] || items == [] ==> s'.runnable == s.runnable && s'.active == s.active)
            && (k.0 in s.owned && QueueOf(s, k) == [] && items != [] ==> k in s'.active)
  {
  }
}
