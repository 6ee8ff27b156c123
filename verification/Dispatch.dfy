/**
 Dispatching a poll batch. In the ordered modes messages are grouped by (partition, submit
 key) and each group is enqueued as a whole; in unordered mode each is enqueued at once.
 */
module Dispatch {
  import opened Common
  import opened TrackerState
  import opened TopologyState
  import opened WorkQueueTopologies

  /** A consumed message; None fields are what the client may leave unset. */
  datatype Message = Message(error: bool, tp: Option<TopicPartition>, offset: Option<int>, key: RecordKey)

  datatype Ordering = ByKey | ByPartition | Unordered

  type Groups = map<QueueKey, seq<WorkItem>>

  /** Messages that reach the work manager: intact, of a tracked partition, not already completed. */
  predicate Dispatched(trackers: TrackerMap, m: Message) {
    && !m.error && m.tp.Some? && m.offset.Some? && m.tp.value in trackers
    && !CompletedUncommitted(trackers[m.tp.value], m.offset.value)
  }

  /** In partition order every message of a partition shares one submit key. */
  function SubmitKey(ordering: Ordering, m: Message): QueueKey
    requires m.tp.Some?
  {
    (m.tp.value, if ordering.ByPartition? then "" else m.key)
  }

  function ItemOf(i: nat, m: Message): WorkItem
    requires m.offset.Some?
  {
    WorkItem(i, m.offset.value)
  }

  /** The dispatched messages of one submit key among the first `n`, in arrival order. */
  function Select(ordering: Ordering, trackers: TrackerMap, ms: seq<Message>, n: nat, k: QueueKey): seq<WorkItem>
    requires n <= |ms|
  {
    if n == 0 then []
    else
      var front := Select(ordering, trackers, ms, n - 1, k);
      if Dispatched(trackers, ms[n - 1]) && SubmitKey(ordering, ms[n - 1]) == k
      then front + [ItemOf(n - 1, ms[n - 1])] else front
  }

  /** The submit keys of the first `n` messages, in order of first arrival. */
  function KeysSeen(ordering: Ordering, trackers: TrackerMap, ms: seq<Message>, n: nat): seq<QueueKey>
    requires n <= |ms|
  {
    if n == 0 then []
    else
      var front := KeysSeen(ordering, trackers, ms, n - 1);
      if Dispatched(trackers, ms[n - 1]) then Appended(front, SubmitKey(ordering, ms[n - 1])) else front
  }

  function GroupOf(groups: Groups, k: QueueKey): seq<WorkItem> {
    if k in groups then groups[k] else []
  }

  function GroupsOf(ordering: Ordering, trackers: TrackerMap, ms: seq<Message>, n: nat): Groups
    requires n <= |ms|
  {
    map k | k in KeysSeen(ordering, trackers, ms, n) :: Select(ordering, trackers, ms, n, k)
  }

  // ----- what a dispatch does to the queues

  /** Submitting to a partition that is not assigned raises and ends the dispatch. */
  datatype Outcome = Outcome(state: Topology, raised: bool)

  function EnqueueGroups(s: Topology, groups: Groups, keys: seq<QueueKey>): Outcome
    decreases |keys|
  {
    if keys == [] then Outcome(s, false)
    else if keys[0].0 !in s.owned then Outcome(s, true)
    else EnqueueGroups(EnqueueBatch(s, keys[0], GroupOf(groups, keys[0])), groups, keys[1..])
  }

  function SubmitOne(s: Topology, ordering: Ordering, trackers: TrackerMap, i: nat, m: Message): Outcome {
    if !Dispatched(trackers, m) then Outcome(s, false)
    else Outcome(EnqueueBatch(s, SubmitKey(ordering, m), [ItemOf(i, m)]), m.tp.value !in s.owned)
  }

  function SubmitEach(s: Topology, ordering: Ordering, trackers: TrackerMap, ms: seq<Message>, n: nat): Outcome
    requires n <= |ms|
  {
    if n == 0 then Outcome(s, false)
    else
      var before := SubmitEach(s, ordering, trackers, ms, n - 1);
      if before.raised then before else SubmitOne(before.state, ordering, trackers, n - 1, ms[n - 1])
  }

  function DispatchBatch(s: Topology, ordering: Ordering, trackers: TrackerMap, ms: seq<Message>): Outcome {
    if ordering.Unordered? then SubmitEach(s, ordering, trackers, ms, |ms|)
    else EnqueueGroups(s, GroupsOf(ordering, trackers, ms, |ms|), KeysSeen(ordering, trackers, ms, |ms|))
  }

  // ----- every queue grows by its own messages, in poll order

  ghost predicate Unowned(s: Topology, trackers: TrackerMap, ms: seq<Message>, n: nat)
    requires n <= |ms|
  {
    exists i :: 0 <= i < n && Dispatched(trackers, ms[i]) && ms[i].tp.value !in s.owned
  }

  lemma {:induction false} KeysSeenHaveGroups(ordering: Ordering, trackers: TrackerMap, ms: seq<Message>, n: nat, k: QueueKey)
    requires n <= |ms|
    ensures NoRepeats(KeysSeen(ordering, trackers, ms, n))
    ensures k in KeysSeen(ordering, trackers, ms, n) <==> Select(ordering, trackers, ms, n, k) != []
  {
    if n > 0 {
      KeysSeenHaveGroups(ordering, trackers, ms, n - 1, k);
    }
  }

  lemma {:induction false} KeysSeenAreOwned(s: Topology, ordering: Ordering, trackers: TrackerMap, ms: seq<Message>, n: nat)
    requires n <= |ms|
    ensures Unowned(s, trackers, ms, n) <==> exists k :: k in KeysSeen(ordering, trackers, ms, n) && k.0 !in s.owned
  {
    if n > 0 {
      KeysSeenAreOwned(s, ordering, trackers, ms, n - 1);
      var front, all := KeysSeen(ordering, trackers, ms, n - 1), KeysSeen(ordering, trackers, ms, n);
      if Dispatched(trackers, ms[n - 1]) {
        assert forall k :: k in all <==> k in front || k == SubmitKey(ordering, ms[n - 1]);
      }
      assert Unowned(s, trackers, ms, n) <==>
             Unowned(s, trackers, ms, n - 1) || (Dispatched(trackers, ms[n - 1]) && ms[n - 1].tp.value !in s.owned);
    }
  }

  lemma OwnershipKept(s: Topology, k: QueueKey, items: seq<WorkItem>)
    ensures EnqueueBatch(s, k, items).owned == s.owned
  {
  }

  ghost predicate SomeUnowned(s: Topology, keys: seq<QueueKey>) {
    exists k :: k in keys && k.0 !in s.owned
  }

  lemma {:induction false} GroupsArriveWhole(s: Topology, groups: Groups, keys: seq<QueueKey>, k: QueueKey)
    requires NoRepeats(keys)
    ensures var o := EnqueueGroups(s, groups, keys);
            && o.state.owned == s.owned
            && (o.raised <==> SomeUnowned(s, keys))
            && (o.raised || k !in keys ==>
                  QueueOf(o.state, k) == QueueOf(s, k) || QueueOf(o.state, k) == QueueOf(s, k) + GroupOf(groups, k))
            && (!o.raised ==> QueueOf(o.state, k) == QueueOf(s, k) + (if k in keys then GroupOf(groups, k) else []))
    decreases |keys|
  {
    if keys != [] {
      var first, rest := keys[0], keys[1..];
      assert first !in rest;
      assert forall l :: l in keys <==> l == first || l in rest;
      if first.0 in s.owned {
        var next := EnqueueBatch(s, first, GroupOf(groups, first));
        EnqueueConserves(s, first, GroupOf(groups, first), k);
        OwnershipKept(s, first, GroupOf(groups, first));
        GroupsArriveWhole(next, groups, rest, k);
        assert SomeUnowned(s, keys) <==> SomeUnowned(next, rest);
        if k == first {
          UntouchedLater(next, groups, rest, k);
        }
      }
    }
  }

  lemma {:induction false} UntouchedLater(s: Topology, groups: Groups, keys: seq<QueueKey>, k: QueueKey)
    requires k !in keys
    ensures QueueOf(EnqueueGroups(s, groups, keys).state, k) == QueueOf(s, k)
    decreases |keys|
  {
    if keys != [] && keys[0].0 in s.owned {
      EnqueueConserves(s, keys[0], GroupOf(groups, keys[0]), k);
      UntouchedLater(EnqueueBatch(s, keys[0], GroupOf(groups, keys[0])), groups, keys[1..], k);
    }
  }

  lemma {:induction false} EachArrivesInTurn(s: Topology, ordering: Ordering, trackers: TrackerMap, ms: seq<Message>, n: nat, k: QueueKey)
    returns (i: nat)
    requires n <= |ms|
    ensures i <= n
    ensures var o := SubmitEach(s, ordering, trackers, ms, n);
            && o.state.owned == s.owned
            && (o.raised <==> Unowned(s, trackers, ms, n))
            && (!o.raised ==> i == n)
            && QueueOf(o.state, k) == QueueOf(s, k) + Select(ordering, trackers, ms, i, k)
  {
    i := n;
    if n > 0 {
      var before := SubmitEach(s, ordering, trackers, ms, n - 1);
      i := EachArrivesInTurn(s, ordering, trackers, ms, n - 1, k);
      OneMoreUnowned(s, trackers, ms, n - 1);
      if !before.raised {
        OneArrives(before.state, ordering, trackers, n - 1, ms[n - 1], k);
        if !SubmitOne(before.state, ordering, trackers, n - 1, ms[n - 1]).raised {
          i := n;
        }
      }
    }
  }

  lemma OneArrives(s: Topology, ordering: Ordering, trackers: TrackerMap, i: nat, m: Message, k: QueueKey)
    ensures var o := SubmitOne(s, ordering, trackers, i, m);
            && o.state.owned == s.owned
            && (o.raised <==> Dispatched(trackers, m) && m.tp.value !in s.owned)
            && QueueOf(o.state, k) ==
               QueueOf(s, k) + (if !o.raised && Dispatched(trackers, m) && SubmitKey(ordering, m) == k then [ItemOf(i, m)] else [])
  {
    if Dispatched(trackers, m) {
      EnqueueConserves(s, SubmitKey(ordering, m), [ItemOf(i, m)], k);
    }
  }

  lemma OneMoreUnowned(s: Topology, trackers: TrackerMap, ms: seq<Message>, n: nat)
    requires n < |ms|
    ensures Unowned(s, trackers, ms, n + 1) <==>
            Unowned(s, trackers, ms, n) || (Dispatched(trackers, ms[n]) && ms[n].tp.value !in s.owned)
  {
  }

  /**
   In every ordering mode a dispatch raises exactly when a dispatched message is of a partition
   without queues; otherwise each queue grows by exactly the dispatched messages of its key, in
   the order they were polled, and even when it raises by the first of them.
   */
  lemma DispatchKeepsArrivalOrder(s: Topology, ordering: Ordering, trackers: TrackerMap, ms: seq<Message>, k: QueueKey)
    returns (i: nat)
    ensures i <= |ms|
    ensures var o := DispatchBatch(s, ordering, trackers, ms);
            && o.state.owned == s.owned
            && (o.raised <==> Unowned(s, trackers, ms, |ms|))
            && (!o.raised ==> i == |ms|)
            && QueueOf(o.state, k) == QueueOf(s, k) + Select(ordering, trackers, ms, i, k)
  {
    if ordering.Unordered? {
      i := EachArrivesInTurn(s, ordering, trackers, ms, |ms|, k);
    } else {
      var groups, keys := GroupsOf(ordering, trackers, ms, |ms|), KeysSeen(ordering, trackers, ms, |ms|);
      KeysSeenHaveGroups(ordering, trackers, ms, |ms|, k);
      KeysSeenAreOwned(s, ordering, trackers, ms, |ms|);
      GroupsArriveWhole(s, groups, keys, k);
      var o := EnqueueGroups(s, groups, keys);
      i := if o.raised && QueueOf(o.state, k) == QueueOf(s, k) then 0 else |ms|;
      assert GroupOf(groups, k) == Select(ordering, trackers, ms, |ms|, k);
    }
  }

  // ----- which messages are queued, and where, in their own terms

  /** What a dispatch appended to the queue of `k`. */
  function Added(s: Topology, s': Topology, k: QueueKey): seq<WorkItem> {
    var before, after := QueueOf(s, k), QueueOf(s', k);
    if before <= after then after[|before|..] else []
  }

  /** `x` stands for one of the first `n` messages, dispatched under `k`. */
  ghost predicate StandsFor(ordering: Ordering, trackers: TrackerMap, ms: seq<Message>, n: nat, k: QueueKey, x: WorkItem)
    requires n <= |ms|
  {
    && 0 <= x.id < n && Dispatched(trackers, ms[x.id])
    && SubmitKey(ordering, ms[x.id]) == k && x.offset == ms[x.id].offset.value
  }

  ghost predicate StandForPoll(ordering: Ordering, trackers: TrackerMap, ms: seq<Message>, n: nat, k: QueueKey, sel: seq<WorkItem>)
    requires n <= |ms|
  {
    && (forall a :: 0 <= a < |sel| ==> StandsFor(ordering, trackers, ms, n, k, sel[a]))
    && (forall a, b :: 0 <= a < b < |sel| ==> sel[a].id < sel[b].id)
  }

  lemma {:induction false} SelectFacts(ordering: Ordering, trackers: TrackerMap, ms: seq<Message>, n: nat, k: QueueKey)
    requires n <= |ms|
    ensures StandForPoll(ordering, trackers, ms, n, k, Select(ordering, trackers, ms, n, k))
  {
    if n > 0 {
      SelectFacts(ordering, trackers, ms, n - 1, k);
      OneMoreStands(ordering, trackers, ms, n, k, Select(ordering, trackers, ms, n - 1, k));
    }
  }

  lemma OneMoreStands(ordering: Ordering, trackers: TrackerMap, ms: seq<Message>, n: nat, k: QueueKey, front: seq<WorkItem>)
    requires 0 < n <= |ms| && StandForPoll(ordering, trackers, ms, n - 1, k, front)
    ensures StandForPoll(ordering, trackers, ms, n, k, front)
    ensures Dispatched(trackers, ms[n - 1]) && SubmitKey(ordering, ms[n - 1]) == k ==>
              StandForPoll(ordering, trackers, ms, n, k, front + [ItemOf(n - 1, ms[n - 1])])
  {
  }

  lemma {:induction false} SelectHas(ordering: Ordering, trackers: TrackerMap, ms: seq<Message>, n: nat, k: QueueKey, i: nat)
    returns (a: nat)
    requires i < n <= |ms| && Dispatched(trackers, ms[i]) && SubmitKey(ordering, ms[i]) == k
    ensures var sel := Select(ordering, trackers, ms, n, k); a < |sel| && sel[a].id == i
  {
    if i == n - 1 {
      a := |Select(ordering, trackers, ms, n, k)| - 1;
    } else {
      a := SelectHas(ordering, trackers, ms, n - 1, k, i);
    }
  }

  lemma AddedIsSelected(s: Topology, ordering: Ordering, trackers: TrackerMap, ms: seq<Message>, k: QueueKey)
    requires !DispatchBatch(s, ordering, trackers, ms).raised
    ensures Added(s, DispatchBatch(s, ordering, trackers, ms).state, k) == Select(ordering, trackers, ms, |ms|, k)
  {
    var i := DispatchKeepsArrivalOrder(s, ordering, trackers, ms, k);
  }

  /** Message `i` was appended to the queue of `k`. */
  ghost predicate LandsIn(s: Topology, s': Topology, k: QueueKey, i: nat) {
    exists a :: 0 <= a < |Added(s, s', k)| && Added(s, s', k)[a].id == i
  }

  /** A tracked partition, both fields set, no error, and the offset not already completed by its tracker. */
  predicate Wanted(trackers: TrackerMap, m: Message) {
    && !m.error && m.tp.Some? && m.offset.Some? && m.tp.value in trackers
    && var t, o := trackers[m.tp.value], m.offset.value;
       !(t.committed < o && o <= t.fetched && o in t.completed)
  }

  lemma LandsExactly(s: Topology, ordering: Ordering, trackers: TrackerMap, ms: seq<Message>, k: QueueKey, i: nat)
    requires !DispatchBatch(s, ordering, trackers, ms).raised && i < |ms|
    ensures LandsIn(s, DispatchBatch(s, ordering, trackers, ms).state, k, i) <==>
              Dispatched(trackers, ms[i]) && SubmitKey(ordering, ms[i]) == k
  {
    AddedIsSelected(s, ordering, trackers, ms, k);
    SelectFacts(ordering, trackers, ms, |ms|, k);
    if Dispatched(trackers, ms[i]) && SubmitKey(ordering, ms[i]) == k {
      var a := SelectHas(ordering, trackers, ms, |ms|, k, i);
      assert Added(s, DispatchBatch(s, ordering, trackers, ms).state, k)[a].id == i;
    }
  }

  /**
   A dispatch that does not raise queues exactly the wanted messages, each in a queue of its own
   partition, under its own offset.
   */
  lemma WantedAreQueued(s: Topology, ordering: Ordering, trackers: TrackerMap, ms: seq<Message>, i: nat)
    requires !DispatchBatch(s, ordering, trackers, ms).raised && i < |ms|
    ensures (exists k :: LandsIn(s, DispatchBatch(s, ordering, trackers, ms).state, k, i)) <==> Wanted(trackers, ms[i])
    ensures var s' := DispatchBatch(s, ordering, trackers, ms).state;
            forall k, a :: 0 <= a < |Added(s, s', k)| && Added(s, s', k)[a].id == i ==>
              ms[i].tp == Some(k.0) && ms[i].offset == Some(Added(s, s', k)[a].offset)
  {
    var s' := DispatchBatch(s, ordering, trackers, ms).state;
    forall k ensures LandsIn(s, s', k, i) <==> Dispatched(trackers, ms[i]) && SubmitKey(ordering, ms[i]) == k {
      LandsExactly(s, ordering, trackers, ms, k, i);
    }
    forall k, a | 0 <= a < |Added(s, s', k)| && Added(s, s', k)[a].id == i
      ensures ms[i].tp == Some(k.0) && ms[i].offset == Some(Added(s, s', k)[a].offset)
    {
      AddedIsSelected(s, ordering, trackers, ms, k);
      SelectFacts(ordering, trackers, ms, |ms|, k);
    }
    if Wanted(trackers, ms[i]) {
      assert LandsIn(s, s', SubmitKey(ordering, ms[i]), i);
    }
  }

  ghost predicate ShareQueue(s: Topology, s': Topology, i: nat, j: nat) {
    exists k :: LandsIn(s, s', k, i) && LandsIn(s, s', k, j)
  }

  /**
   Two wanted messages of a poll land in the same queue exactly when they are of one partition
   and, unless partition order is kept, have one record key.
   */
  lemma QueueSharing(s: Topology, ordering: Ordering, trackers: TrackerMap, ms: seq<Message>, i: nat, j: nat)
    requires !DispatchBatch(s, ordering, trackers, ms).raised && i < j < |ms|
    requires Wanted(trackers, ms[i]) && Wanted(trackers, ms[j])
    ensures ShareQueue(s, DispatchBatch(s, ordering, trackers, ms).state, i, j) <==>
              ms[i].tp == ms[j].tp && (ordering.ByPartition? || ms[i].key == ms[j].key)
  {
    var s' := DispatchBatch(s, ordering, trackers, ms).state;
    if k :| LandsIn(s, s', k, i) && LandsIn(s, s', k, j) {
      LandsExactly(s, ordering, trackers, ms, k, i);
      LandsExactly(s, ordering, trackers, ms, k, j);
    }
    if ms[i].tp == ms[j].tp && (ordering.ByPartition? || ms[i].key == ms[j].key) {
      LandsExactly(s, ordering, trackers, ms, SubmitKey(ordering, ms[i]), i);
      LandsExactly(s, ordering, trackers, ms, SubmitKey(ordering, ms[i]), j);
    }
  }

  /** In a queue that two messages of a poll share, the earlier comes first. */
  lemma EarlierComesFirst(s: Topology, ordering: Ordering, trackers: TrackerMap, ms: seq<Message>, k: QueueKey, a: nat, b: nat)
    requires !DispatchBatch(s, ordering, trackers, ms).raised
    requires var added := Added(s, DispatchBatch(s, ordering, trackers, ms).state, k);
             a < |added| && b < |added| && added[a].id < added[b].id
    ensures a < b
  {
    AddedIsSelected(s, ordering, trackers, ms, k);
    SelectFacts(ordering, trackers, ms, |ms|, k);
  }

  // ----- the dispatch loop

  method DispatchMessages(ordering: Ordering, trackers: TrackerMap, ms: seq<Message>, topology: WorkQueueTopology)
    returns (raised: bool)
    modifies topology
    ensures Outcome(topology.State(), raised) == DispatchBatch(old(topology.State()), ordering, trackers, ms)
  {
    if ordering.Unordered? {
      raised := SubmitMessages(ordering, trackers, ms, topology);
    } else {
      var groups, order := GroupMessages(ordering, trackers, ms);
      raised := SubmitGroups(groups, order, topology);
    }
  }

  method SubmitMessages(ordering: Ordering, trackers: TrackerMap, ms: seq<Message>, topology: WorkQueueTopology)
    returns (raised: bool)
    modifies topology
    ensures Outcome(topology.State(), raised) == SubmitEach(old(topology.State()), ordering, trackers, ms, |ms|)
  {
    ghost var before := topology.State();
    var i := 0;
    while i < |ms|
      invariant 0 <= i <= |ms|
      invariant SubmitEach(before, ordering, trackers, ms, i) == Outcome(topology.State(), false)
    {
      var accepted := true;
      if Dispatched(trackers, ms[i]) {
        accepted := topology.EnqueueItems(SubmitKey(ordering, ms[i]), [ItemOf(i, ms[i])]);
      }
      i := i + 1;
      assert SubmitEach(before, ordering, trackers, ms, i) == Outcome(topology.State(), !accepted);
      if !accepted {
        RaisedStays(before, ordering, trackers, ms, i, |ms|);
        return true;
      }
    }
    return false;
  }

  /** The groups in arrival order, and their keys in order of first arrival. */
  method GroupMessages(ordering: Ordering, trackers: TrackerMap, ms: seq<Message>)
    returns (groups: Groups, order: seq<QueueKey>)
    ensures groups == GroupsOf(ordering, trackers, ms, |ms|) && order == KeysSeen(ordering, trackers, ms, |ms|)
    ensures forall k :: GroupOf(groups, k) == Select(ordering, trackers, ms, |ms|, k)
  {
    groups, order := map[], [];
    var i := 0;
    while i < |ms|
      invariant 0 <= i <= |ms|
      invariant groups == GroupsOf(ordering, trackers, ms, i) && order == KeysSeen(ordering, trackers, ms, i)
    {
      var m := ms[i];
      if !m.error && m.tp.Some? && m.offset.Some? && m.tp.value in trackers
         && !CompletedUncommitted(trackers[m.tp.value], m.offset.value) {
        var k := SubmitKey(ordering, m);
        groups := groups[k := (if k in groups then groups[k] else []) + [ItemOf(i, m)]];
        order := Appended(order, k);
        GroupedMessage(ordering, trackers, ms, i, k);
      } else {
        SkippedMessage(ordering, trackers, ms, i);
      }
      i := i + 1;
    }
    forall k ensures GroupOf(groups, k) == Select(ordering, trackers, ms, |ms|, k) {
      KeysSeenHaveGroups(ordering, trackers, ms, |ms|, k);
    }
  }

  method SubmitGroups(groups: Groups, order: seq<QueueKey>, topology: WorkQueueTopology) returns (raised: bool)
    modifies topology
    ensures Outcome(topology.State(), raised) == EnqueueGroups(old(topology.State()), groups, order)
  {
    var i := 0;
    assert order[0..] == order;
    while i < |order|
      invariant 0 <= i <= |order|
      invariant EnqueueGroups(old(topology.State()), groups, order) ==
                EnqueueGroups(topology.State(), groups, order[i..])
    {
      NextGroup(topology.State(), groups, order, i);
      var accepted := topology.EnqueueItems(order[i], GroupOf(groups, order[i]));
      if !accepted {
        return true;
      }
      i := i + 1;
    }
    return false;
  }

  lemma NextGroup(s: Topology, groups: Groups, order: seq<QueueKey>, i: nat)
    requires i < |order|
    ensures EnqueueGroups(s, groups, order[i..]) ==
            if order[i].0 !in s.owned then Outcome(s, true)
            else EnqueueGroups(EnqueueBatch(s, order[i], GroupOf(groups, order[i])), groups, order[i + 1..])
  {
    assert order[i..][1..] == order[i + 1..];
  }

  lemma {:induction false} RaisedStays(s: Topology, ordering: Ordering, trackers: TrackerMap, ms: seq<Message>, i: nat, n: nat)
    requires i <= n <= |ms| && SubmitEach(s, ordering, trackers, ms, i).raised
    ensures SubmitEach(s, ordering, trackers, ms, n) == SubmitEach(s, ordering, trackers, ms, i)
    decreases n
  {
    if i < n {
      RaisedStays(s, ordering, trackers, ms, i, n - 1);
    }
  }

  lemma GroupedMessage(ordering: Ordering, trackers: TrackerMap, ms: seq<Message>, n: nat, k: QueueKey)
    requires n < |ms| && Dispatched(trackers, ms[n]) && SubmitKey(ordering, ms[n]) == k
    ensures var groups := GroupsOf(ordering, trackers, ms, n);
            GroupsOf(ordering, trackers, ms, n + 1) == groups[k := GroupOf(groups, k) + [ItemOf(n, ms[n])]]
  {
    KeysSeenHaveGroups(ordering, trackers, ms, n, k);
    InAppended(KeysSeen(ordering, trackers, ms, n), k);
    var groups, more := GroupsOf(ordering, trackers, ms, n), GroupsOf(ordering, trackers, ms, n + 1);
    assert more.Keys == groups.Keys + {k};
    forall l | l in more ensures more[l] == groups[k := GroupOf(groups, k) + [ItemOf(n, ms[n])]][l] {
    }
  }

  lemma SkippedMessage(ordering: Ordering, trackers: TrackerMap, ms: seq<Message>, n: nat)
    requires n < |ms| && !Dispatched(trackers, ms[n])
    ensures GroupsOf(ordering, trackers, ms, n + 1) == GroupsOf(ordering, trackers, ms, n)
  {
  }

  lemma InAppended(r: seq<QueueKey>, k: QueueKey)
    ensures forall l :: l in Appended(r, k) <==> l in r || l == k
  {
  }

  // ----- whole runs of polling and scheduling

  datatype Move = Poll(trackers: TrackerMap, messages: seq<Message>) | Work(op: Op)

  function PlayOne(s: Topology, ordering: Ordering, move: Move): Topology {
    match move
    case Poll(trackers, ms) => DispatchBatch(s, ordering, trackers, ms).state
    case Work(op) => Do(s, op)
  }

  function Play(s: Topology, ordering: Ordering, moves: seq<Move>): Topology
    decreases |moves|
  {
    if moves == [] then s else Play(PlayOne(s, ordering, moves[0]), ordering, moves[1..])
  }

  function Polled(ordering: Ordering, move: Move, k: QueueKey): seq<WorkItem> {
    if move.Poll? then Select(ordering, move.trackers, move.messages, |move.messages|, k) else []
  }

  function TakenFrom(s: Topology, move: Move, k: QueueKey): seq<WorkItem> {
    if move.Work? then TakenBy(s, move.op, k) else []
  }

  /** Everything dispatched for the key, poll after poll. */
  function PolledFor(ordering: Ordering, moves: seq<Move>, k: QueueKey): seq<WorkItem>
    decreases |moves|
  {
    if moves == [] then [] else Polled(ordering, moves[0], k) + PolledFor(ordering, moves[1..], k)
  }

  /** Everything taken from the key's queue, in order. */
  function TakenIn(s: Topology, ordering: Ordering, moves: seq<Move>, k: QueueKey): seq<WorkItem>
    decreases |moves|
  {
    if moves == [] then []
    else TakenFrom(s, moves[0], k) + TakenIn(PlayOne(s, ordering, moves[0]), ordering, moves[1..], k)
  }

  /** Tracked partitions have queues when polled, work arrives by polling, and `tp` is not rebalanced. */
  ghost predicate Plain(s: Topology, move: Move, tp: TopicPartition) {
    match move
    case Poll(trackers, _) => trackers.Keys <= s.owned
    case Work(op) => !op.Enqueued? && !Rebalances(op, tp)
  }

  ghost predicate Steady(s: Topology, ordering: Ordering, moves: seq<Move>, tp: TopicPartition)
    decreases |moves|
  {
    moves == [] || (Plain(s, moves[0], tp) && Steady(PlayOne(s, ordering, moves[0]), ordering, moves[1..], tp))
  }

  lemma MoveConserves(s: Topology, ordering: Ordering, move: Move, k: QueueKey)
    requires Plain(s, move, k.0)
    ensures QueueOf(s, k) + Polled(ordering, move, k) == TakenFrom(s, move, k) + QueueOf(PlayOne(s, ordering, move), k)
  {
    match move {
      case Poll(trackers, ms) =>
        var i := DispatchKeepsArrivalOrder(s, ordering, trackers, ms, k);
      case Work(op) => StepConserves(s, op, k);
    }
  }

  /**
   Over every run of polls, picks, dequeues and rebalances of other partitions: what was taken
   from a queue followed by what it still holds is what it held at first followed by the
   dispatched messages of its key in poll order.
   */
  lemma {:induction false} PollOrderIsConserved(s: Topology, ordering: Ordering, moves: seq<Move>, k: QueueKey)
    requires Steady(s, ordering, moves, k.0)
    ensures QueueOf(s, k) + PolledFor(ordering, moves, k) ==
            TakenIn(s, ordering, moves, k) + QueueOf(Play(s, ordering, moves), k)
    decreases |moves|
  {
    if moves != [] {
      var move, next := moves[0], PlayOne(s, ordering, moves[0]);
      MoveConserves(s, ordering, move, k);
      PollOrderIsConserved(next, ordering, moves[1..], k);
      Regroup(QueueOf(s, k), Polled(ordering, move, k), PolledFor(ordering, moves[1..], k),
              TakenFrom(s, move, k), QueueOf(next, k),
              TakenIn(next, ordering, moves[1..], k), QueueOf(Play(s, ordering, moves), k));
    }
  }

  /** From an empty queue, the messages of a key are taken in poll order, none skipped. */
  lemma TakenInPollOrder(s: Topology, ordering: Ordering, moves: seq<Move>, k: QueueKey)
    requires Steady(s, ordering, moves, k.0) && QueueOf(s, k) == []
    ensures TakenIn(s, ordering, moves, k) <= PolledFor(ordering, moves, k)
  {
    PollOrderIsConserved(s, ordering, moves, k);
    assert [] + PolledFor(ordering, moves, k) == PolledFor(ordering, moves, k);
  }
}
