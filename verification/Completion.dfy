/** Completion events and when processing a message is over. */
module CompletionEvents {
  import opened Common

  datatype Event = Event(tp: TopicPartition, offset: int, epoch: int, success: bool, attempt: int)

  type Key = (TopicPartition, int)

  function KeyOf(e: Event): Key { (e.tp, e.offset) }

  datatype DlqPolicy = DlqPolicy(enabled: bool, maxRetries: int)

  predicate NeedsDlq(policy: DlqPolicy, e: Event) {
    !e.success && policy.enabled && e.attempt >= policy.maxRetries
  }

  /** Processing `e` is over: it needs no dead-letter publish, or the publish returned true. */
  predicate Settles(policy: DlqPolicy, e: Event, published: bool) {
    NeedsDlq(policy, e) ==> published
  }
}

/**
 Processing a batch of completion events together with the ledger of events whose
 dead-letter publish failed earlier and is retried now.
 */
module Completion {
  import opened Common
  import opened CompletionEvents
  import opened TrackerState

  // ----- the retry ledger: insertion ordered, one event per key

  type Ledger = seq<Event>

  predicate Has(ledger: Ledger, key: Key) {
    exists i :: 0 <= i < |ledger| && KeyOf(ledger[i]) == key
  }

  function Drop(ledger: Ledger, key: Key): Ledger {
    if ledger == [] then []
    else if KeyOf(ledger[0]) == key then Drop(ledger[1..], key)
    else [ledger[0]] + Drop(ledger[1..], key)
  }

  /** Replaces the event of the same key in place, or appends. */
  function Put(ledger: Ledger, e: Event): Ledger {
    if ledger == [] then [e]
    else if KeyOf(ledger[0]) == KeyOf(e) then [e] + ledger[1..]
    else [ledger[0]] + Put(ledger[1..], e)
  }

  ghost predicate DistinctKeys(ledger: Ledger) {
    forall i, j :: 0 <= i < j < |ledger| ==> KeyOf(ledger[i]) != KeyOf(ledger[j])
  }

  lemma HasCons(e: Event, rest: Ledger, key: Key)
    ensures Has([e] + rest, key) <==> KeyOf(e) == key || Has(rest, key)
  {
    var all := [e] + rest;
    assert all[0] == e && forall i :: 0 <= i < |rest| ==> all[i + 1] == rest[i];
    if Has(all, key) {
      var i :| 0 <= i < |all| && KeyOf(all[i]) == key;
      assert i > 0 ==> rest[i - 1] == all[i];
    }
    if Has(rest, key) {
      var i :| 0 <= i < |rest| && KeyOf(rest[i]) == key;
      assert all[i + 1] == rest[i];
    }
  }

  lemma {:induction false} HasDrop(ledger: Ledger, key: Key, k: Key)
    ensures Has(Drop(ledger, key), k) <==> k != key && Has(ledger, k)
  {
    if ledger != [] {
      HasDrop(ledger[1..], key, k);
      assert ledger == [ledger[0]] + ledger[1..];
      HasCons(ledger[0], ledger[1..], k);
      HasCons(ledger[0], Drop(ledger[1..], key), k);
    }
  }

  lemma {:induction false} HasPut(ledger: Ledger, e: Event, k: Key)
    ensures Has(Put(ledger, e), k) <==> k == KeyOf(e) || Has(ledger, k)
  {
    if ledger == [] {
      assert [e] == [e] + [];
      HasCons(e, [], k);
    } else {
      HasPut(ledger[1..], e, k);
      assert ledger == [ledger[0]] + ledger[1..];
      HasCons(ledger[0], ledger[1..], k);
      HasCons(e, ledger[1..], k);
      HasCons(ledger[0], Put(ledger[1..], e), k);
    }
  }

  /** The event put last is the one the ledger holds under its key; the others stay. */
  lemma {:induction false} InPut(ledger: Ledger, x: Event, e: Event)
    ensures x in Put(ledger, x)
    ensures e in ledger && KeyOf(e) != KeyOf(x) ==> e in Put(ledger, x)
    ensures e in Put(ledger, x) ==> e in ledger || e == x
  {
    if ledger != [] {
      InPut(ledger[1..], x, e);
    }
  }

  lemma {:induction false} InDrop(ledger: Ledger, key: Key, e: Event)
    ensures e in Drop(ledger, key) <==> e in ledger && KeyOf(e) != key
  {
    if ledger != [] {
      InDrop(ledger[1..], key, e);
    }
  }

  lemma HasMember(ledger: Ledger, e: Event)
    requires e in ledger
    ensures Has(ledger, KeyOf(e))
  {
    var i :| 0 <= i < |ledger| && ledger[i] == e;
    assert KeyOf(ledger[i]) == KeyOf(e);
  }

  lemma DistinctCons(e: Event, rest: Ledger)
    ensures DistinctKeys([e] + rest) <==> DistinctKeys(rest) && !Has(rest, KeyOf(e))
  {
    var all := [e] + rest;
    assert all[0] == e && forall i :: 0 <= i < |rest| ==> all[i + 1] == rest[i];
    if DistinctKeys(all) {
      forall i, j | 0 <= i < j < |rest| ensures KeyOf(rest[i]) != KeyOf(rest[j]) {
        assert all[i + 1] == rest[i] && all[j + 1] == rest[j];
      }
    }
    if DistinctKeys(rest) && !Has(rest, KeyOf(e)) {
      forall i, j | 0 <= i < j < |all| ensures KeyOf(all[i]) != KeyOf(all[j]) {
        assert all[j] == rest[j - 1] && (i > 0 ==> all[i] == rest[i - 1]);
      }
    }
  }

  lemma {:induction false} DropKeepsDistinct(ledger: Ledger, key: Key)
    requires DistinctKeys(ledger)
    ensures DistinctKeys(Drop(ledger, key))
  {
    if ledger != [] {
      var first, rest := ledger[0], ledger[1..];
      assert ledger == [first] + rest;
      DistinctCons(first, rest);
      DropKeepsDistinct(rest, key);
      DistinctCons(first, Drop(rest, key));
      HasDrop(rest, key, KeyOf(first));
    }
  }

  lemma {:induction false} PutKeepsDistinct(ledger: Ledger, e: Event)
    requires DistinctKeys(ledger)
    ensures DistinctKeys(Put(ledger, e))
  {
    if ledger != [] {
      var first, rest := ledger[0], ledger[1..];
      assert ledger == [first] + rest;
      DistinctCons(first, rest);
      DistinctCons(e, rest);
      PutKeepsDistinct(rest, e);
      DistinctCons(first, Put(rest, e));
      HasPut(rest, e, KeyOf(first));
    }
  }

  // ----- one event

  /** An event to process: retried from the ledger or fresh, with the outcome of its publish. */
  datatype Entry = Entry(event: Event, retried: bool, published: bool)

  datatype Batch = Batch(trackers: TrackerMap, ledger: Ledger, resolved: set<Key>, completed: seq<Key>)

  predicate Current(trackers: TrackerMap, e: Event) {
    e.tp in trackers && e.epoch == trackers[e.tp].epoch
  }

  predicate Ignored(b: Batch, x: Entry) {
    !x.retried && (Has(b.ledger, KeyOf(x.event)) || KeyOf(x.event) in b.resolved)
  }

  /** Marking the event's offset complete makes its completed set grow. */
  predicate Grows(trackers: TrackerMap, e: Event)
    requires e.tp in trackers
  {
    e.offset > trackers[e.tp].committed && e.offset !in trackers[e.tp].completed
  }

  function ProcessOne(policy: DlqPolicy, b: Batch, x: Entry): Batch {
    var e := x.event;
    if Ignored(b, x) then b
    else if !Current(b.trackers, e) then
      if x.retried then b.(ledger := Drop(b.ledger, KeyOf(e))) else b
    else if !Settles(policy, e, x.published) then b.(ledger := Put(b.ledger, e))
    else
      Batch(b.trackers[e.tp := MarkComplete(b.trackers[e.tp], e.offset)],
            Drop(b.ledger, KeyOf(e)),
            if x.retried then b.resolved + {KeyOf(e)} else b.resolved,
            if Grows(b.trackers, e) then b.completed + [KeyOf(e)] else b.completed)
  }

  function ProcessAll(policy: DlqPolicy, b: Batch, xs: seq<Entry>): Batch
    decreases |xs|
  {
    if xs == [] then b else ProcessAll(policy, ProcessOne(policy, b, xs[0]), xs[1..])
  }

  /** The ledger's events first, then the fresh ones. */
  function Entries(ledger: Ledger, fresh': seq<Event>, outcomes: nat -> bool): seq<Entry> {
    seq(|ledger| + |fresh'|, i requires 0 <= i < |ledger| + |fresh'| =>
      if i < |ledger| then Entry(ledger[i], true, outcomes(i))
      else Entry(fresh'[i - |ledger|], false, outcomes(i)))
  }

  function ProcessBatch(policy: DlqPolicy, trackers: TrackerMap, ledger: Ledger, events: seq<Event>, outcomes: nat -> bool): Batch {
    ProcessAll(policy, Batch(trackers, ledger, {}, []), Entries(ledger, events, outcomes))
  }

  // ----- nothing is lost

  ghost predicate Done(trackers: TrackerMap, key: Key) {
    key.0 in trackers ==> key.1 <= trackers[key.0].committed || key.1 in trackers[key.0].completed
  }

  ghost predicate Accounted(b: Batch, key: Key) {
    Done(b.trackers, key) || Has(b.ledger, key)
  }

  /** Processing never moves a committed offset or an epoch, and completed sets only grow. */
  ghost predicate Onward(a: TrackerMap, b: TrackerMap) {
    && a.Keys == b.Keys
    && forall tp :: tp in a ==>
         && a[tp].committed == b[tp].committed && a[tp].epoch == b[tp].epoch
         && a[tp].completed <= b[tp].completed
  }

  ghost predicate ResolvedDone(b: Batch) {
    forall key :: key in b.resolved ==> Done(b.trackers, key)
  }

  lemma OneGoesOnward(policy: DlqPolicy, b: Batch, x: Entry)
    ensures Onward(b.trackers, ProcessOne(policy, b, x).trackers)
    ensures ResolvedDone(b) ==> ResolvedDone(ProcessOne(policy, b, x))
  {
  }

  lemma OneAccounts(policy: DlqPolicy, b: Batch, x: Entry)
    requires ResolvedDone(b) && Current(b.trackers, x.event)
    ensures Accounted(ProcessOne(policy, b, x), KeyOf(x.event))
  {
    HasPut(b.ledger, x.event, KeyOf(x.event));
  }

  lemma OneForgetsNothing(policy: DlqPolicy, b: Batch, x: Entry, key: Key)
    requires Accounted(b, key) && (x.retried ==> KeyOf(x.event) != key)
    ensures Accounted(ProcessOne(policy, b, x), key)
  {
    HasPut(b.ledger, x.event, key);
    HasDrop(b.ledger, KeyOf(x.event), key);
  }

  lemma {:induction false} AllForgetNothing(policy: DlqPolicy, b: Batch, xs: seq<Entry>, key: Key)
    requires Accounted(b, key)
    requires forall i :: 0 <= i < |xs| && xs[i].retried ==> KeyOf(xs[i].event) != key
    ensures Accounted(ProcessAll(policy, b, xs), key)
    decreases |xs|
  {
    if xs != [] {
      OneForgetsNothing(policy, b, xs[0], key);
      AllForgetNothing(policy, ProcessOne(policy, b, xs[0]), xs[1..], key);
    }
  }

  lemma {:induction false} AllAccount(policy: DlqPolicy, b: Batch, xs: seq<Entry>, i: nat)
    requires ResolvedDone(b) && i < |xs| && Current(b.trackers, xs[i].event)
    requires forall j :: i < j < |xs| && xs[j].retried ==> KeyOf(xs[j].event) != KeyOf(xs[i].event)
    ensures Accounted(ProcessAll(policy, b, xs), KeyOf(xs[i].event))
    decreases |xs|
  {
    var next := ProcessOne(policy, b, xs[0]);
    OneGoesOnward(policy, b, xs[0]);
    if i == 0 {
      OneAccounts(policy, b, xs[0]);
      AllForgetNothing(policy, next, xs[1..], KeyOf(xs[0].event));
    } else {
      AllAccount(policy, next, xs[1..], i - 1);
    }
  }

  /**
   After a batch, the offset of every tracked current-epoch event, fresh or retried, is
   committed, completed, or waiting in the ledger.
   */
  lemma NothingIsLost(policy: DlqPolicy, trackers: TrackerMap, ledger: Ledger, events: seq<Event>,
                      outcomes: nat -> bool, e: Event)
    requires DistinctKeys(ledger) && (e in ledger || e in events) && Current(trackers, e)
    ensures Accounted(ProcessBatch(policy, trackers, ledger, events, outcomes), KeyOf(e))
  {
    var xs := Entries(ledger, events, outcomes);
    var b := Batch(trackers, ledger, {}, []);
    if e in ledger {
      var i :| 0 <= i < |ledger| && ledger[i] == e;
      AllAccount(policy, b, xs, i);
    } else {
      var i :| 0 <= i < |events| && events[i] == e;
      assert xs[|ledger| + i].event == e;
      AllAccount(policy, b, xs, |ledger| + i);
    }
  }

  // ----- nothing completes early

  ghost predicate Newly(a: TrackerMap, b: TrackerMap, key: Key) {
    key.0 in a && key.0 in b && key.1 in b[key.0].completed && key.1 !in a[key.0].completed
  }

  ghost predicate SettledBy(policy: DlqPolicy, trackers: TrackerMap, xs: seq<Entry>, key: Key) {
    exists i :: 0 <= i < |xs| && KeyOf(xs[i].event) == key
                && key.0 in trackers && xs[i].event.epoch == trackers[key.0].epoch
                && (xs[i].event.success || !policy.enabled || xs[i].event.attempt < policy.maxRetries || xs[i].published)
  }

  /**
   An offset becomes complete only through a current-epoch event that succeeded, needs no
   dead-letter publish by the configuration, or was published.
   */
  lemma {:induction false} CompletedOnlyWhenSettled(policy: DlqPolicy, b: Batch, xs: seq<Entry>, key: Key)
    requires Newly(b.trackers, ProcessAll(policy, b, xs).trackers, key)
    ensures SettledBy(policy, b.trackers, xs, key)
    decreases |xs|
  {
    if xs != [] {
      var next := ProcessOne(policy, b, xs[0]);
      OneGoesOnward(policy, b, xs[0]);
      if Newly(b.trackers, next.trackers, key) {
        assert KeyOf(xs[0].event) == key;
      } else {
        CompletedOnlyWhenSettled(policy, next, xs[1..], key);
        var i :| 0 <= i < |xs[1..]| && KeyOf(xs[1..][i].event) == key
                 && key.0 in next.trackers && xs[1..][i].event.epoch == next.trackers[key.0].epoch
                 && (xs[1..][i].event.success || !policy.enabled || xs[1..][i].event.attempt < policy.maxRetries
                     || xs[1..][i].published);
        assert xs[i + 1] == xs[1..][i];
      }
    }
  }

  /** While a key stays in the ledger, fresh duplicates cannot complete it. */
  lemma {:induction false} LedgerBlocksFresh(policy: DlqPolicy, b: Batch, xs: seq<Entry>, key: Key)
    requires Has(b.ledger, key)
    requires forall i :: 0 <= i < |xs| && xs[i].retried ==> KeyOf(xs[i].event) != key
    ensures Has(ProcessAll(policy, b, xs).ledger, key)
    ensures !Newly(b.trackers, ProcessAll(policy, b, xs).trackers, key)
    decreases |xs|
  {
    if xs != [] {
      var next := ProcessOne(policy, b, xs[0]);
      HasPut(b.ledger, xs[0].event, key);
      HasDrop(b.ledger, KeyOf(xs[0].event), key);
      OneGoesOnward(policy, b, xs[0]);
      assert !Newly(b.trackers, next.trackers, key);
      LedgerBlocksFresh(policy, next, xs[1..], key);
    }
  }

  /** The very event that waits stays, as long as its key is not retried. */
  lemma {:induction false} WaitingStays(policy: DlqPolicy, b: Batch, xs: seq<Entry>, e: Event)
    requires e in b.ledger
    requires forall i :: 0 <= i < |xs| && xs[i].retried ==> KeyOf(xs[i].event) != KeyOf(e)
    ensures e in ProcessAll(policy, b, xs).ledger
    decreases |xs|
  {
    if xs != [] {
      HasMember(b.ledger, e);
      InPut(b.ledger, xs[0].event, e);
      InDrop(b.ledger, KeyOf(xs[0].event), e);
      WaitingStays(policy, ProcessOne(policy, b, xs[0]), xs[1..], e);
    }
  }

  lemma {:induction false} AllGoOnward(policy: DlqPolicy, b: Batch, xs: seq<Entry>)
    ensures Onward(b.trackers, ProcessAll(policy, b, xs).trackers)
    ensures forall key :: Newly(b.trackers, ProcessAll(policy, b, xs).trackers, key) ==>
              key.1 > b.trackers[key.0].committed
    decreases |xs|
  {
    if xs != [] {
      OneGoesOnward(policy, b, xs[0]);
      AllGoOnward(policy, ProcessOne(policy, b, xs[0]), xs[1..]);
    }
  }

  /** Entry `i` is the first of its key in the tracker's epoch. */
  ghost predicate FirstCurrent(trackers: TrackerMap, xs: seq<Entry>, i: nat, key: Key) {
    && i < |xs| && KeyOf(xs[i].event) == key && Current(trackers, xs[i].event)
    && forall j :: 0 <= j < i && KeyOf(xs[j].event) == key ==> !Current(trackers, xs[j].event)
  }

  /** Only the first entry of the key may come from the ledger, and it does if the ledger has the key. */
  ghost predicate RetriedFirst(b: Batch, xs: seq<Entry>, key: Key) {
    && key !in b.resolved
    && (forall j, l :: 0 <= j < l < |xs| && KeyOf(xs[j].event) == key && KeyOf(xs[l].event) == key ==> !xs[l].retried)
    && (Has(b.ledger, key) ==> exists j :: 0 <= j < |xs| && KeyOf(xs[j].event) == key && xs[j].retried)
  }

  /** An entry of another key, or of another epoch, decides nothing about `key`. */
  lemma OneElsewhere(policy: DlqPolicy, b: Batch, x: Entry, key: Key)
    requires KeyOf(x.event) != key || !Current(b.trackers, x.event)
    ensures var next := ProcessOne(policy, b, x);
            && (key in next.resolved <==> key in b.resolved)
            && (Has(next.ledger, key) <==> Has(b.ledger, key) && !(KeyOf(x.event) == key && x.retried))
            && (key.0 in b.trackers ==>
                  && key.0 in next.trackers
                  && (key.1 in next.trackers[key.0].completed <==> key.1 in b.trackers[key.0].completed))
  {
    HasPut(b.ledger, x.event, key);
    HasDrop(b.ledger, KeyOf(x.event), key);
  }

  lemma RetriedFirstLater(policy: DlqPolicy, b: Batch, xs: seq<Entry>, key: Key)
    requires RetriedFirst(b, xs, key) && xs != []
    requires KeyOf(xs[0].event) != key || !Current(b.trackers, xs[0].event)
    ensures RetriedFirst(ProcessOne(policy, b, xs[0]), xs[1..], key)
  {
    OneElsewhere(policy, b, xs[0], key);
    var rest := xs[1..];
    assert forall j :: 0 <= j < |rest| ==> rest[j] == xs[j + 1];
    if Has(ProcessOne(policy, b, xs[0]).ledger, key) {
      var j :| 0 <= j < |xs| && KeyOf(xs[j].event) == key && xs[j].retried;
      assert rest[j - 1] == xs[j];
    }
  }

  /** The first current entry of a key decides: it completes the offset, or keeps it out of the whole batch. */
  lemma {:induction false} FirstDecides(policy: DlqPolicy, b: Batch, xs: seq<Entry>, i: nat, key: Key)
    requires RetriedFirst(b, xs, key) && FirstCurrent(b.trackers, xs, i, key)
    ensures var x, end := xs[i], ProcessAll(policy, b, xs);
            && (Newly(b.trackers, end.trackers, key) <==> Settles(policy, x.event, x.published) && Grows(b.trackers, x.event))
            && (!Settles(policy, x.event, x.published) ==> x.event in end.ledger)
    decreases |xs|
  {
    var next := ProcessOne(policy, b, xs[0]);
    OneGoesOnward(policy, b, xs[0]);
    if i == 0 {
      FirstIsProcessed(b, xs, key);
      AllGoOnward(policy, b, xs);
      AllGoOnward(policy, next, xs[1..]);
      if !Settles(policy, xs[0].event, xs[0].published) {
        InPut(b.ledger, xs[0].event, xs[0].event);
        HasMember(next.ledger, xs[0].event);
        LedgerBlocksFresh(policy, next, xs[1..], key);
        WaitingStays(policy, next, xs[1..], xs[0].event);
      }
    } else {
      RetriedFirstLater(policy, b, xs, key);
      OneElsewhere(policy, b, xs[0], key);
      FirstDecides(policy, next, xs[1..], i - 1, key);
    }
  }

  lemma FirstIsProcessed(b: Batch, xs: seq<Entry>, key: Key)
    requires RetriedFirst(b, xs, key) && xs != [] && KeyOf(xs[0].event) == key
    ensures !Ignored(b, xs[0])
  {
  }

  lemma FirstOfBatchDecides(policy: DlqPolicy, trackers: TrackerMap, ledger: Ledger, events: seq<Event>,
                            outcomes: nat -> bool, i: nat)
    requires DistinctKeys(ledger)
    requires i < |ledger| + |events|
    requires var xs := Entries(ledger, events, outcomes); FirstCurrent(trackers, xs, i, KeyOf(xs[i].event))
    ensures var x, end := Entries(ledger, events, outcomes)[i], ProcessBatch(policy, trackers, ledger, events, outcomes);
            && (Newly(trackers, end.trackers, KeyOf(x.event)) <==>
                  Settles(policy, x.event, x.published) && Grows(trackers, x.event))
            && (!Settles(policy, x.event, x.published) ==> x.event in end.ledger)
  {
    var xs := Entries(ledger, events, outcomes);
    EntriesRetryFirst(trackers, ledger, events, outcomes, KeyOf(xs[i].event));
    FirstDecides(policy, Batch(trackers, ledger, {}, []), xs, i, KeyOf(xs[i].event));
  }

  lemma EntriesRetryFirst(trackers: TrackerMap, ledger: Ledger, events: seq<Event>, outcomes: nat -> bool, key: Key)
    requires DistinctKeys(ledger)
    ensures RetriedFirst(Batch(trackers, ledger, {}, []), Entries(ledger, events, outcomes), key)
  {
    var xs := Entries(ledger, events, outcomes);
    if Has(ledger, key) {
      var j :| 0 <= j < |ledger| && KeyOf(ledger[j]) == key;
      assert xs[j].retried && KeyOf(xs[j].event) == key;
    }
  }

  /** The offset of `key` is past the committed one and not completed. */
  predicate Open(trackers: TrackerMap, key: Key) {
    key.0 in trackers && key.1 > trackers[key.0].committed && key.1 !in trackers[key.0].completed
  }

  /**
   A fresh event, first of its key in the tracker's epoch, with no such event in the ledger.
   Its offset becomes complete exactly when it was open and the event is a success, or dead
   letters are off, or retries are left, or the publish returned true. Otherwise the event
   waits in the ledger, whatever duplicates follow.
   */
  lemma FreshOutcomeDecides(policy: DlqPolicy, trackers: TrackerMap, ledger: Ledger, events: seq<Event>,
                            outcomes: nat -> bool, i: nat)
    requires DistinctKeys(ledger) && i < |events|
    requires events[i].tp in trackers && events[i].epoch == trackers[events[i].tp].epoch
    requires forall e :: e in ledger + events[..i] && KeyOf(e) == KeyOf(events[i]) ==> e.epoch != events[i].epoch
    ensures var e, end := events[i], ProcessBatch(policy, trackers, ledger, events, outcomes);
            var over := e.success || !policy.enabled || e.attempt < policy.maxRetries || outcomes(|ledger| + i);
            && (Newly(trackers, end.trackers, (e.tp, e.offset)) <==> over && Open(trackers, (e.tp, e.offset)))
            && (!over ==> e in end.ledger)
  {
    var xs := Entries(ledger, events, outcomes);
    var at := |ledger| + i;
    forall j | 0 <= j < at && KeyOf(xs[j].event) == KeyOf(events[i]) ensures !Current(trackers, xs[j].event) {
      var before := ledger + events[..i];
      assert before[j] == xs[j].event;
      assert before[j] in before;
    }
    assert xs[at].event == events[i];
    FirstOfBatchDecides(policy, trackers, ledger, events, outcomes, at);
  }

  /**
   The same for an event of the ledger in the tracker's epoch, whose publish is tried again;
   once it is over, it has left the ledger whatever duplicates follow.
   */
  lemma RetriedOutcomeDecides(policy: DlqPolicy, trackers: TrackerMap, ledger: Ledger, events: seq<Event>,
                              outcomes: nat -> bool, i: nat)
    requires DistinctKeys(ledger) && i < |ledger|
    requires ledger[i].tp in trackers && ledger[i].epoch == trackers[ledger[i].tp].epoch
    ensures var e, end := ledger[i], ProcessBatch(policy, trackers, ledger, events, outcomes);
            var over := e.success || !policy.enabled || e.attempt < policy.maxRetries || outcomes(i);
            && (Newly(trackers, end.trackers, (e.tp, e.offset)) <==> over && Open(trackers, (e.tp, e.offset)))
            && (Has(end.ledger, (e.tp, e.offset)) <==> !over) && (!over ==> e in end.ledger)
  {
    var xs := Entries(ledger, events, outcomes);
    assert xs[i].event == ledger[i] && forall j :: 0 <= j < i ==> KeyOf(xs[j].event) != KeyOf(ledger[i]);
    FirstOfBatchDecides(policy, trackers, ledger, events, outcomes, i);
    if ledger[i] in ProcessBatch(policy, trackers, ledger, events, outcomes).ledger {
      HasMember(ProcessBatch(policy, trackers, ledger, events, outcomes).ledger, ledger[i]);
    }
    if Settles(policy, ledger[i], outcomes(i)) {
      ResolvedLeaves(policy, Batch(trackers, ledger, {}, []), xs, i);
    }
  }

  /** A resolved key stays out of the ledger. */
  lemma {:induction false} ResolvedStaysOut(policy: DlqPolicy, b: Batch, xs: seq<Entry>, key: Key)
    requires key in b.resolved && !Has(b.ledger, key)
    requires forall j :: 0 <= j < |xs| && KeyOf(xs[j].event) == key ==> !xs[j].retried
    ensures !Has(ProcessAll(policy, b, xs).ledger, key)
    decreases |xs|
  {
    if xs != [] {
      HasPut(b.ledger, xs[0].event, key);
      HasDrop(b.ledger, KeyOf(xs[0].event), key);
      ResolvedStaysOut(policy, ProcessOne(policy, b, xs[0]), xs[1..], key);
    }
  }

  lemma {:induction false} ResolvedLeaves(policy: DlqPolicy, b: Batch, xs: seq<Entry>, i: nat)
    requires i < |xs| && xs[i].retried && Current(b.trackers, xs[i].event)
    requires Settles(policy, xs[i].event, xs[i].published)
    requires forall j :: i < j < |xs| && KeyOf(xs[j].event) == KeyOf(xs[i].event) ==> !xs[j].retried
    ensures !Has(ProcessAll(policy, b, xs).ledger, KeyOf(xs[i].event))
    decreases |xs|
  {
    OneGoesOnward(policy, b, xs[0]);
    if i == 0 {
      HasDrop(b.ledger, KeyOf(xs[0].event), KeyOf(xs[0].event));
      ResolvedStaysOut(policy, ProcessOne(policy, b, xs[0]), xs[1..], KeyOf(xs[0].event));
    } else {
      ResolvedLeaves(policy, ProcessOne(policy, b, xs[0]), xs[1..], i - 1);
    }
  }

  /** An event of the ledger whose partition is gone, or of another epoch, leaves it when nothing follows. */
  lemma {:induction false} StaleLeavesLedger(policy: DlqPolicy, b: Batch, xs: seq<Entry>, i: nat)
    requires i < |xs| && xs[i].retried
    requires xs[i].event.tp !in b.trackers || xs[i].event.epoch != b.trackers[xs[i].event.tp].epoch
    requires forall j :: i < j < |xs| ==> KeyOf(xs[j].event) != KeyOf(xs[i].event)
    ensures !Has(ProcessAll(policy, b, xs).ledger, KeyOf(xs[i].event))
    decreases |xs|
  {
    OneGoesOnward(policy, b, xs[0]);
    var next := ProcessOne(policy, b, xs[0]);
    if i == 0 {
      HasDrop(b.ledger, KeyOf(xs[0].event), KeyOf(xs[0].event));
      AbsentStaysAbsent(policy, next, xs[1..], KeyOf(xs[0].event));
    } else {
      StaleLeavesLedger(policy, next, xs[1..], i - 1);
    }
  }

  lemma {:induction false} AbsentStaysAbsent(policy: DlqPolicy, b: Batch, xs: seq<Entry>, key: Key)
    requires !Has(b.ledger, key) && forall j :: 0 <= j < |xs| ==> KeyOf(xs[j].event) != key
    ensures !Has(ProcessAll(policy, b, xs).ledger, key)
    decreases |xs|
  {
    if xs != [] {
      HasPut(b.ledger, xs[0].event, key);
      HasDrop(b.ledger, KeyOf(xs[0].event), key);
      AbsentStaysAbsent(policy, ProcessOne(policy, b, xs[0]), xs[1..], key);
    }
  }

  /** A fresh event that is over leaves nothing in the ledger when no duplicate follows. */
  lemma {:induction false} OverLeavesNothing(policy: DlqPolicy, b: Batch, xs: seq<Entry>, i: nat)
    requires i < |xs| && Current(b.trackers, xs[i].event) && !Has(b.ledger, KeyOf(xs[i].event))
    requires xs[i].event.success || !policy.enabled || xs[i].event.attempt < policy.maxRetries || xs[i].published
    requires forall j :: 0 <= j < |xs| && j != i ==> KeyOf(xs[j].event) != KeyOf(xs[i].event)
    ensures !Has(ProcessAll(policy, b, xs).ledger, KeyOf(xs[i].event))
    decreases |xs|
  {
    OneGoesOnward(policy, b, xs[0]);
    var next := ProcessOne(policy, b, xs[0]);
    HasDrop(b.ledger, KeyOf(xs[0].event), KeyOf(xs[i].event));
    HasPut(b.ledger, xs[0].event, KeyOf(xs[i].event));
    if i == 0 {
      AbsentStaysAbsent(policy, next, xs[1..], KeyOf(xs[0].event));
    } else {
      OverLeavesNothing(policy, next, xs[1..], i - 1);
    }
  }

  // ----- the report matches the growth

  /** The newly completed offsets reported for one partition, in order. */
  function OffsetsFor(completed: seq<Key>, tp: TopicPartition): seq<int> {
    if completed == [] then []
    else
      var front := OffsetsFor(completed[..|completed| - 1], tp);
      var last := completed[|completed| - 1];
      if last.0 == tp then front + [last.1] else front
  }

  lemma OffsetsForAppend(completed: seq<Key>, key: Key, tp: TopicPartition)
    ensures OffsetsFor(completed + [key], tp) ==
            if key.0 == tp then OffsetsFor(completed, tp) + [key.1] else OffsetsFor(completed, tp)
  {
  }

  ghost predicate GrewBy(before: Tracker, after: Tracker, offsets: seq<int>) {
    && after == before.(completed := after.completed)
    && (forall i :: 0 <= i < |offsets| ==> offsets[i] > before.committed && offsets[i] !in before.completed)
    && (forall i, j :: 0 <= i < j < |offsets| ==> offsets[i] != offsets[j])
    && (forall o :: o in after.completed <==> o in before.completed || o in offsets)
    && |after.completed| == |before.completed| + |offsets|
  }

  /** Reported offsets are exactly the growth of each completed set, each counted once. */
  ghost predicate Reported(before: TrackerMap, b: Batch) {
    && GrowthOf(before, b.trackers, b.completed)
    && (forall i :: 0 <= i < |b.completed| ==> b.completed[i].0 in before)
  }

  ghost predicate GrowthOf(before: TrackerMap, trackers: TrackerMap, completed: seq<Key>) {
    && before.Keys == trackers.Keys
    && (forall tp :: tp in before ==> GrewBy(before[tp], trackers[tp], OffsetsFor(completed, tp)))
  }

  lemma MarkReported(before: TrackerMap, trackers: TrackerMap, completed: seq<Key>, e: Event, tp: TopicPartition)
    requires tp in before && tp in trackers && e.tp in trackers && Grows(trackers, e)
    requires GrewBy(before[tp], trackers[tp], OffsetsFor(completed, tp))
    ensures GrewBy(before[tp], trackers[e.tp := MarkComplete(trackers[e.tp], e.offset)][tp],
                   OffsetsFor(completed + [KeyOf(e)], tp))
  {
  }

  lemma NoGrowth(trackers: TrackerMap, e: Event)
    requires e.tp in trackers && !Grows(trackers, e)
    ensures trackers[e.tp := MarkComplete(trackers[e.tp], e.offset)] == trackers
  {
    var t := trackers[e.tp];
    assert e.offset > t.committed ==> t.completed + {e.offset} == t.completed;
  }

  lemma OneReported(policy: DlqPolicy, before: TrackerMap, b: Batch, x: Entry)
    requires Reported(before, b)
    ensures Reported(before, ProcessOne(policy, b, x))
  {
    var e := x.event;
    if !Ignored(b, x) && Current(b.trackers, e) && Settles(policy, e, x.published) {
      if Grows(b.trackers, e) {
        GrowthReported(before, b, e);
      } else {
        NoGrowth(b.trackers, e);
      }
    }
  }

  lemma GrowthReported(before: TrackerMap, b: Batch, e: Event)
    requires Reported(before, b) && e.tp in b.trackers && Grows(b.trackers, e)
    ensures Reported(before, b.(trackers := b.trackers[e.tp := MarkComplete(b.trackers[e.tp], e.offset)],
                                completed := b.completed + [KeyOf(e)]))
  {
    GrowthMarked(before, b.trackers, b.completed, e);
  }

  lemma GrowthMarked(before: TrackerMap, trackers: TrackerMap, completed: seq<Key>, e: Event)
    requires GrowthOf(before, trackers, completed) && e.tp in trackers && Grows(trackers, e)
    ensures GrowthOf(before, trackers[e.tp := MarkComplete(trackers[e.tp], e.offset)], completed + [KeyOf(e)])
  {
    forall tp | tp in before
      ensures GrewBy(before[tp], trackers[e.tp := MarkComplete(trackers[e.tp], e.offset)][tp],
                     OffsetsFor(completed + [KeyOf(e)], tp))
    {
      MarkReported(before, trackers, completed, e, tp);
    }
  }

  lemma {:induction false} AllReported(policy: DlqPolicy, before: TrackerMap, b: Batch, xs: seq<Entry>)
    requires Reported(before, b)
    ensures Reported(before, ProcessAll(policy, b, xs))
    decreases |xs|
  {
    if xs != [] {
      OneReported(policy, before, b, xs[0]);
      AllReported(policy, before, ProcessOne(policy, b, xs[0]), xs[1..]);
    }
  }

  lemma ReportIsExact(policy: DlqPolicy, trackers: TrackerMap, ledger: Ledger, events: seq<Event>, outcomes: nat -> bool)
    ensures Reported(trackers, ProcessBatch(policy, trackers, ledger, events, outcomes))
  {
    AllReported(policy, trackers, Batch(trackers, ledger, {}, []), Entries(ledger, events, outcomes));
  }

  // ----- the processor

  /** What a batch reports to the settlement ledgers. */
  datatype Report = Report(count: nat, offsets: map<TopicPartition, seq<int>>)

  function Partitions(completed: seq<Key>): set<TopicPartition> {
    set i | 0 <= i < |completed| :: completed[i].0
  }

  function ReportOf(completed: seq<Key>): Report {
    Report(|completed|, map tp | tp in Partitions(completed) :: OffsetsFor(completed, tp))
  }

  lemma ReportAppend(completed: seq<Key>, key: Key)
    ensures var before := ReportOf(completed).offsets;
            ReportOf(completed + [key]).offsets ==
            before[key.0 := (if key.0 in before then before[key.0] else []) + [key.1]]
  {
    var all := completed + [key];
    assert Partitions(all) == Partitions(completed) + {key.0} by {
      assert all[|completed|] == key;
      assert forall i :: 0 <= i < |completed| ==> all[i] == completed[i];
      forall tp | tp in Partitions(completed) ensures tp in Partitions(all) {
        var i :| 0 <= i < |completed| && completed[i].0 == tp;
        assert all[i].0 == tp;
      }
    }
    forall tp ensures OffsetsFor(all, tp) ==
                      if key.0 == tp then OffsetsFor(completed, tp) + [key.1] else OffsetsFor(completed, tp)
    {
      OffsetsForAppend(completed, key, tp);
    }
    AbsentHasNone(completed, key.0);
  }

  lemma {:induction false} AbsentHasNone(completed: seq<Key>, tp: TopicPartition)
    ensures tp !in Partitions(completed) ==> OffsetsFor(completed, tp) == []
  {
    if completed != [] {
      var front, n := completed[..|completed| - 1], |completed| - 1;
      AbsentHasNone(front, tp);
      assert completed[n].0 in Partitions(completed);
      forall p | p in Partitions(front) ensures p in Partitions(completed) {
        var i :| 0 <= i < |front| && front[i].0 == p;
        assert completed[i].0 == p;
      }
    }
  }

  class CompletionProcessor {
    const policy: DlqPolicy
    var trackers: TrackerMap
    var ledger: Ledger

    constructor (policy: DlqPolicy)
      ensures this.policy == policy && trackers == map[] && ledger == []
    {
      this.policy, trackers, ledger := policy, map[], [];
    }

    /** `outcomes(i)` is what publishing event `i` to the dead-letter topic would return. */
    method ProcessCompletedEvents(events: seq<Event>, outcomes: nat -> bool) returns (report: Report)
      modifies this
      ensures var b := ProcessBatch(policy, old(trackers), old(ledger), events, outcomes);
              trackers == b.trackers && ledger == b.ledger && report == ReportOf(b.completed)
    {
      var entries := Entries(ledger, events, outcomes);
      var resolved: set<Key> := {};
      var count, offsets := 0, map[];
      ghost var completed: seq<Key> := [];
      ghost var begin := Batch(trackers, ledger, {}, []);
      var i := 0;
      assert entries[0..] == entries;
      while i < |entries|
        invariant 0 <= i <= |entries|
        invariant ProcessAll(policy, begin, entries) ==
                  ProcessAll(policy, Batch(trackers, ledger, resolved, completed), entries[i..])
        invariant ReportOf(completed) == Report(count, offsets)
      {
        assert entries[i..][1..] == entries[i + 1..];
        var x := entries[i];
        var newly: bool;
        ReportAppend(completed, KeyOf(x.event));
        resolved, newly := ProcessEvent(x, resolved, completed);
        if newly {
          var seen := if x.event.tp in offsets then offsets[x.event.tp] else [];
          offsets := offsets[x.event.tp := seen + [x.event.offset]];
          count := count + 1;
          completed := completed + [KeyOf(x.event)];
        }
        i := i + 1;
      }
      report := Report(count, offsets);
    }

    method ProcessEvent(x: Entry, resolvedBefore: set<Key>, ghost completed: seq<Key>)
      returns (resolved: set<Key>, newly: bool)
      modifies this
      ensures Batch(trackers, ledger, resolved, if newly then completed + [KeyOf(x.event)] else completed) ==
              ProcessOne(policy, Batch(old(trackers), old(ledger), resolvedBefore, completed), x)
    {
      var e, key := x.event, KeyOf(x.event);
      resolved, newly := resolvedBefore, false;
      if !x.retried && (Has(ledger, key) || key in resolved) {
        return;
      }
      if e.tp !in trackers || e.epoch != trackers[e.tp].epoch {
        if x.retried {
          ledger := Drop(ledger, key);
        }
        return;
      }
      var dlqSuccess := true;
      if !e.success && policy.enabled && e.attempt >= policy.maxRetries {
        dlqSuccess := x.published;
      }
      if !dlqSuccess {
        ledger := Put(ledger, e);
        return;
      }
      var before := |trackers[e.tp].completed|;
      GrowthIsVisible(trackers[e.tp], e.offset);
      trackers := trackers[e.tp := MarkComplete(trackers[e.tp], e.offset)];
      newly := |trackers[e.tp].completed| != before;
      if x.retried {
        resolved := resolved + {key};
      }
      ledger := Drop(ledger, key);
    }
  }

  lemma GrowthIsVisible(t: Tracker, o: int)
    ensures |MarkComplete(t, o).completed| != |t.completed| <==> o > t.committed && o !in t.completed
  {
    if o in t.completed {
      assert t.completed + {o} == t.completed;
    }
  }
}
