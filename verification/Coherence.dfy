/** Every locked region that reorders the upper heaps, or skips the reordering, leaves the
    three levels coherent. */
module Coherence {
  import opened Heaps
  import opened Scheduling

  ghost function KeysWere(s: Sched, c: ChannelId, k: int): map<StateId, int> {
    StateKeys(ChannelKeys(s.queued)[c := k], s.queues)
  }

  ghost function KeysNow(s: Sched, c: ChannelId, heap: seq<ChannelId>): map<StateId, int>
    requires c < |s.config| && s.config[c].state in s.queues
  {
    StateKeys(ChannelKeys(s.queued), WithHeap(s, s.config[c].state, heap).queues)
  }

  /** Replacing the channel heap of one state changes no other ready state's key. */
  lemma OtherStatesKeepKeys(s: Sched, c: ChannelId, present: set<ChannelId>, k: int, heap: seq<ChannelId>)
    requires Listed(s, c, present)
    ensures forall i :: 0 <= i < |s.ready| && s.ready[i] != s.config[c].state ==>
      && s.ready[i] in KeysWere(s, c, k)
      && s.ready[i] in KeysNow(s, c, heap)
      && KeysNow(s, c, heap)[s.ready[i]] == KeysWere(s, c, k)[s.ready[i]]
  {
    forall i | 0 <= i < |s.ready| && s.ready[i] != s.config[c].state
      ensures s.ready[i] in KeysWere(s, c, k) && s.ready[i] in KeysNow(s, c, heap)
      ensures KeysNow(s, c, heap)[s.ready[i]] == KeysWere(s, c, k)[s.ready[i]]
    {
      var x := s.ready[i];
      InReady(s.queues, s.ready, x);
      var front := s.queues[x].heap[0];
      InHeap(s.config, present, x, s.queues[x].heap, front);
      assert front in present - {c};
    }
  }

  /** A channel heap that does not hold `c` is not affected by it. */
  lemma OtherHeapsAreRight(s: Sched, c: ChannelId, present: set<ChannelId>, k: int, x: StateId)
    requires Listed(s, c, present) && OrderedWith(s, c, k)
    requires x in s.queues && x != s.config[c].state
    ensures HeapLists(s.config, NonEmpty(s.queued), x, s.queues[x].heap)
    ensures Ordered(ChannelKeys(s.queued), s.queues[x].heap)
  {
    hide StatesListed, StateKeys;
    var keys, h := ChannelKeys(s.queued), s.queues[x].heap;
    forall d: ChannelId ensures Count(h, d) ==
        if d in NonEmpty(s.queued) && d < |s.config| && s.config[d].scheduled && s.config[d].state == x then 1 else 0
    {
      assert d != c ==> (d in present - {c} <==> d in NonEmpty(s.queued) - {c});
    }
    forall d | d in h ensures d in keys && keys[c := k][d] == keys[d] {
      InHeap(s.config, present, x, h, d);
      assert d in present - {c};
    }
    hide HeapLists;
    SameKeysSameOrder(keys[c := k], keys, h);
  }

  /** A new channel heap for `c`'s state and a new ready heap, both in order and listing what
      they should, make a stale scheduler coherent. */
  lemma Restored(s: Sched, c: ChannelId, present: set<ChannelId>, k: int, heap: seq<ChannelId>, ready: seq<StateId>)
    requires Listed(s, c, present) && QueuesOk(s.queued) && OrderedWith(s, c, k)
    requires Ordered(ChannelKeys(s.queued), heap)
    requires HeapLists(s.config, NonEmpty(s.queued), s.config[c].state, heap)
    requires StatesListed(WithHeap(s, s.config[c].state, heap).queues, ready)
    requires Ordered(StateKeys(ChannelKeys(s.queued), WithHeap(s, s.config[c].state, heap).queues), ready)
    ensures Coherent(WithHeap(s, s.config[c].state, heap).(ready := ready))
  {
    hide HeapLists, Ordered, StatesListed, QueuesOk, OrderedWith, NonEmpty;
    var st := s.config[c].state;
    var s' := WithHeap(s, st, heap).(ready := ready);
    forall x | x in s'.queues
      ensures HeapLists(s.config, NonEmpty(s.queued), x, s'.queues[x].heap)
      ensures Ordered(ChannelKeys(s.queued), s'.queues[x].heap)
    {
      if x != st {
        OtherHeapsAreRight(s, c, present, k, x);
      }
    }
  }

  /** The heap of `c`'s state once `c` has been added, moved or removed. */
  lemma HeapRestored(s: Sched, c: ChannelId, present: set<ChannelId>, k: int)
    requires Listed(s, c, present) && OrderedWith(s, c, k)
    ensures var keys, h := ChannelKeys(s.queued), s.queues[s.config[c].state].heap;
      && (c !in present ==> Ordered(keys, h))
      && (c in present ==> Removable(keys, h, c) && Ordered(keys, ForcePop(keys, h, c)))
      && (c in present && c in keys ==> Ordered(keys, Reinsert(keys, h, c)))
  {
    var keys, h := ChannelKeys(s.queued), s.queues[s.config[c].state].heap;
    assert Count(h, c) == if c in present then 1 else 0;
    if c in present {
      ForcePopOrders(keys, h, c, k);
      if c in keys {
        ReinsertOrders(keys, h, c, k);
      }
    } else {
      ChannelsDefined(s, c, present);
      SameKeysSameOrder(keys[c := k], keys, h);
    }
  }

  /** A first level that is right again: `heap` is the new channel heap of `c`'s state. */
  ghost predicate HeapRight(s: Sched, c: ChannelId, present: set<ChannelId>, k: int, heap: seq<ChannelId>) {
    && Listed(s, c, present) && QueuesOk(s.queued) && OrderedWith(s, c, k)
    && Ordered(ChannelKeys(s.queued), heap)
    && HeapLists(s.config, NonEmpty(s.queued), s.config[c].state, heap)
  }

  ghost function Repaired(s: Sched, c: ChannelId, heap: seq<ChannelId>, ready: seq<StateId>): Sched
    requires c < |s.config| && s.config[c].state in s.queues
  {
    WithHeap(s, s.config[c].state, heap).(ready := ready)
  }

  lemma ReadyIff(s: Sched, c: ChannelId, present: set<ChannelId>)
    requires Listed(s, c, present)
    ensures var st := s.config[c].state; st in s.ready <==> s.queues[st].enabled && s.queues[st].heap != []
  {
    var st := s.config[c].state;
    assert st in s.ready <==> Count(s.ready, st) > 0;
  }

  /** The ready heap lists the right states if only `st` has come or gone. */
  lemma StatesRelisted(s: Sched, st: StateId, heap: seq<ChannelId>, ready: seq<StateId>)
    requires StatesListed(s.queues, s.ready) && st in s.queues
    requires Count(ready, st) == if s.queues[st].enabled && heap != [] then 1 else 0
    requires multiset(ready) - multiset{st} == multiset(s.ready) - multiset{st}
    ensures StatesListed(WithHeap(s, st, heap).queues, ready)
  {
    forall x: StateId | x != st ensures Count(ready, x) == Count(s.ready, x) {
      assert (multiset(ready) - multiset{st})[x] == multiset(ready)[x];
      assert (multiset(s.ready) - multiset{st})[x] == multiset(s.ready)[x];
    }
  }

  /** The upper heap may be left alone if the state is not ready, or its key is the same. */
  lemma SkipIsSafe(s: Sched, c: ChannelId, present: set<ChannelId>, k: int, heap: seq<ChannelId>)
    requires HeapRight(s, c, present, k, heap)
    requires var st := s.config[c].state;
      if st in s.ready then
        heap != [] && st in KeysWere(s, c, k) && st in KeysNow(s, c, heap) && KeysNow(s, c, heap)[st] == KeysWere(s, c, k)[st]
      else !s.queues[st].enabled
    ensures Coherent(Repaired(s, c, heap, s.ready))
  {
    hide Coherent, HeapLists, NonEmpty, ChannelsListed, Ordered;
    OtherStatesKeepKeys(s, c, present, k, heap);
    SameKeysSameOrder(KeysWere(s, c, k), KeysNow(s, c, heap), s.ready);
    ReadyIff(s, c, present);
    StatesRelisted(s, s.config[c].state, heap, s.ready);
    Restored(s, c, present, k, heap, s.ready);
  }

  /** The state is ready: take it out under its old key, if it had one. */
  lemma ReadyIsStale(s: Sched, c: ChannelId, present: set<ChannelId>, k: int, heap: seq<ChannelId>)
    requires HeapRight(s, c, present, k, heap)
    requires s.config[c].state in s.ready
    ensures var st, was := s.config[c].state, KeysWere(s, c, k);
      st in was && Ordered(KeysNow(s, c, heap)[st := was[st]], s.ready) && Count(s.ready, st) == 1
  {
    hide Coherent, HeapLists, NonEmpty, ChannelsListed;
    var st, was, now := s.config[c].state, KeysWere(s, c, k), KeysNow(s, c, heap);
    assert Count(s.ready, st) > 0;
    OtherStatesKeepKeys(s, c, present, k, heap);
    SameKeysSameOrder(was, now[st := was[st]], s.ready);
  }

  /** The state is ready and its key may have changed: take it out and put it back. */
  lemma ReinsertIsRight(s: Sched, c: ChannelId, present: set<ChannelId>, k: int, heap: seq<ChannelId>)
    requires HeapRight(s, c, present, k, heap)
    requires s.config[c].state in s.ready && heap != []
    ensures var st, now := s.config[c].state, KeysNow(s, c, heap);
      st in now && Removable(now, s.ready, st) && Coherent(Repaired(s, c, heap, Reinsert(now, s.ready, st)))
  {
    hide Coherent, HeapLists, NonEmpty, ChannelsListed, StatesListed, OrderedWith, QueuesOk;
    var st, was, now := s.config[c].state, KeysWere(s, c, k), KeysNow(s, c, heap);
    ReadyIsStale(s, c, present, k, heap);
    ReadyIff(s, c, present);
    assert heap[0] in heap;
    hide Ordered;
    ReinsertOrders(now, s.ready, st, was[st]);
    StatesRelisted(s, st, heap, Reinsert(now, s.ready, st));
    Restored(s, c, present, k, heap, Reinsert(now, s.ready, st));
  }

  /** The state has no packets any more: take it out. */
  lemma RemovalIsRight(s: Sched, c: ChannelId, present: set<ChannelId>, k: int, heap: seq<ChannelId>)
    requires HeapRight(s, c, present, k, heap)
    requires s.config[c].state in s.ready && heap == []
    ensures var st, now := s.config[c].state, KeysNow(s, c, heap);
      Removable(now, s.ready, st) && Coherent(Repaired(s, c, heap, ForcePop(now, s.ready, st)))
  {
    hide Coherent, HeapLists, NonEmpty, ChannelsListed, StatesListed, OrderedWith, QueuesOk, Ordered;
    var st, was, now := s.config[c].state, KeysWere(s, c, k), KeysNow(s, c, heap);
    ReadyIsStale(s, c, present, k, heap);
    ForcePopOrders(now, s.ready, st, was[st]);
    StatesRelisted(s, st, heap, ForcePop(now, s.ready, st));
    Restored(s, c, present, k, heap, ForcePop(now, s.ready, st));
  }

  lemma StateHasKey(s: Sched, c: ChannelId, heap: seq<ChannelId>)
    requires WellFormed(s) && c < |s.config| && heap != [] && Ordered(ChannelKeys(s.queued), heap)
    ensures s.config[c].state in KeysNow(s, c, heap)
  {
    assert heap[0] in heap;
  }

  lemma ReadyWasOrdered(s: Sched, c: ChannelId, k: int)
    requires OrderedWith(s, c, k)
    ensures Ordered(KeysWere(s, c, k), s.ready)
  {
  }

  lemma OrderedIsComparable<T>(keys: map<T, int>, h: seq<T>)
    requires Ordered(keys, h)
    ensures Comparable(keys, h)
  {
  }

  /** The state was not ready and is now. */
  lemma InsertIsRight(s: Sched, c: ChannelId, present: set<ChannelId>, k: int, heap: seq<ChannelId>)
    requires HeapRight(s, c, present, k, heap)
    requires var st := s.config[c].state; st !in s.ready && s.queues[st].enabled && heap != []
    ensures var st, now := s.config[c].state, KeysNow(s, c, heap);
      st in now && Comparable(now, s.ready) && Coherent(Repaired(s, c, heap, Push(now, s.ready, st)))
  {
    hide Coherent, HeapLists, NonEmpty, ChannelsListed, StatesListed, QueuesOk, OrderedWith, Ordered, Push, Comparable;
    var st, now := s.config[c].state, KeysNow(s, c, heap);
    StateHasKey(s, c, heap);
    ReadyWasOrdered(s, c, k);
    OtherStatesKeepKeys(s, c, present, k, heap);
    SameKeysSameOrder(KeysWere(s, c, k), now, s.ready);
    assert Comparable(now, s.ready) by { OrderedIsComparable(now, s.ready); }
    PushOrders(now, s.ready, st);
    StatesRelisted(s, st, heap, Push(now, s.ready, st));
    Restored(s, c, present, k, heap, Push(now, s.ready, st));
  }

  lemma KeyIsInTime(s: Sched, c: ChannelId)
    requires QueuesOk(s.queued) && c in ChannelKeys(s.queued)
    ensures ChannelKeys(s.queued)[c] < MAX_TIME
  {
    assert QueueOk(s.queued[c]) && s.queued[c][0] in s.queued[c];
  }

  /** The first level of JobsArrived. */
  lemma ChannelAdded(s: Sched, c: ChannelId, k: int)
    requires Listed(s, c, NonEmpty(s.queued) - {c}) && QueuesOk(s.queued) && OrderedWith(s, c, k)
    requires s.queued[c] != []
    ensures var keys, st := ChannelKeys(s.queued), s.config[c].state;
      var h := s.queues[st].heap;
      && Comparable(keys, h) && c in keys && keys[c] < MAX_TIME
      && var heap := Push(keys, h, c);
      && Ordered(keys, heap)
      && HeapLists(s.config, NonEmpty(s.queued), st, heap)
      && (h == [] ==> heap == [c])
      && (h != [] ==> h[0] != c && keys[heap[0]] <= keys[h[0]] < MAX_TIME)
  {
    hide Coherent, StatesListed, Ordered, Push, Comparable, OrderedWith, QueuesOk;
    var present := NonEmpty(s.queued) - {c};
    var keys, st := ChannelKeys(s.queued), s.config[c].state;
    var h := s.queues[st].heap;
    assert Count(h, c) == 0;
    ChannelsDefined(s, c, present);
    HeapRestored(s, c, present, k);
    PushOrders(keys, h, c);
    KeyIsInTime(s, c);
    var heap := Push(keys, h, c);
    ListsWith(s.config, present, st, h, c, heap);
    assert NonEmpty(s.queued) == present + {c};
    FrontAfterAdding(keys, h, c, heap);
    if h != [] {
      KeyIsInTime(s, h[0]);
      assert Count(h, h[0]) > 0;
    } else {
      assert multiset(heap) == multiset{c} && |multiset(heap)| == 1;
    }
  }

  lemma ArrivedSkips(s: Sched, c: ChannelId, k: int)
    requires Listed(s, c, NonEmpty(s.queued) - {c}) && QueuesOk(s.queued) && OrderedWith(s, c, k)
    requires s.queued[c] != [] && !JobsArrived(s, c).1
    ensures Coherent(JobsArrived(s, c).0)
  {
    hide Ordered, HeapLists, StatesListed, ChannelsListed, QueuesOk, OrderedWith, OrderedUnder, Coherent, NonEmpty;
    ChannelAdded(s, c, k);
    ReadyIff(s, c, NonEmpty(s.queued) - {c});
    SkipIsSafe(s, c, NonEmpty(s.queued) - {c}, k, Push(ChannelKeys(s.queued), s.queues[s.config[c].state].heap, c));
  }

  lemma ArrivedRepairs(s: Sched, c: ChannelId, k: int)
    requires Listed(s, c, NonEmpty(s.queued) - {c}) && QueuesOk(s.queued) && OrderedWith(s, c, k)
    requires s.queued[c] != [] && JobsArrived(s, c).1
    ensures Coherent(JobsArrived(s, c).0)
  {
    hide Ordered, HeapLists, StatesListed, ChannelsListed, QueuesOk, OrderedWith, OrderedUnder, Coherent, Reinsert, NonEmpty;
    var q := s.queues[s.config[c].state];
    ChannelAdded(s, c, k);
    ReadyIff(s, c, NonEmpty(s.queued) - {c});
    var heap := Push(ChannelKeys(s.queued), q.heap, c);
    if q.heap != [] {
      ReinsertIsRight(s, c, NonEmpty(s.queued) - {c}, k, heap);
    } else {
      InsertIsRight(s, c, NonEmpty(s.queued) - {c}, k, heap);
    }
  }

  lemma JobsArrivedRestores(s: Sched, c: ChannelId, k: int)
    requires Listed(s, c, NonEmpty(s.queued) - {c}) && QueuesOk(s.queued) && OrderedWith(s, c, k)
    requires s.queued[c] != []
    ensures Coherent(JobsArrived(s, c).0)
  {
    hide *;
    if JobsArrived(s, c).1 {
      ArrivedRepairs(s, c, k);
    } else {
      ArrivedSkips(s, c, k);
    }
  }

  /** The first level of JobsUpdated. */
  lemma ChannelMoved(s: Sched, c: ChannelId, k: int)
    requires Listed(s, c, NonEmpty(s.queued)) && OrderedWith(s, c, k)
    requires s.queued[c] != []
    ensures var keys, st := ChannelKeys(s.queued), s.config[c].state;
      var h := s.queues[st].heap;
      && c in keys && h != [] && h[0] in keys && Removable(keys, h, c)
      && var heap := Reinsert(keys, h, c);
      && Ordered(keys, heap)
      && HeapLists(s.config, NonEmpty(s.queued), st, heap)
  {
    var keys, st := ChannelKeys(s.queued), s.config[c].state;
    var h := s.queues[st].heap;
    ChannelsDefined(s, c, NonEmpty(s.queued));
    HeapRestored(s, c, NonEmpty(s.queued), k);
    assert h[0] in h;
  }

  /** Moving a channel that is not the front leaves the earlier of its key and the front's. */
  lemma FrontAfterMove(s: Sched, c: ChannelId, k: int)
    requires Listed(s, c, NonEmpty(s.queued)) && OrderedWith(s, c, k)
    requires s.queued[c] != []
    ensures var keys, h := ChannelKeys(s.queued), s.queues[s.config[c].state].heap;
      && c in keys && h != [] && h[0] in keys && Removable(keys, h, c)
      && (h[0] != c ==> var heap := Reinsert(keys, h, c);
           heap[0] in keys && keys[heap[0]] == if keys[c] < keys[h[0]] then keys[c] else keys[h[0]])
  {
    hide StatesListed, StateKeys;
    var keys, h := ChannelKeys(s.queued), s.queues[s.config[c].state].heap;
    ChannelMoved(s, c, k);
    assert Count(h, c) == 1;
    hide HeapLists, NonEmpty, Ordered;
    if h[0] != c {
      FrontAfterReinsert(keys, h, c, k);
    }
  }

  lemma JobsUpdatedRestores(s: Sched, c: ChannelId, k: int, wasPush: bool)
    requires Listed(s, c, NonEmpty(s.queued)) && QueuesOk(s.queued) && OrderedWith(s, c, k)
    requires s.queued[c] != []
    ensures Coherent(JobsUpdated(s, c, wasPush).0)
  {
    hide Ordered, HeapLists, StatesListed, ChannelsListed, QueuesOk, OrderedWith, OrderedUnder, Coherent, Reinsert, NonEmpty;
    var keys, st := ChannelKeys(s.queued), s.config[c].state;
    var q := s.queues[st];
    ChannelMoved(s, c, k);
    ReadyIff(s, c, NonEmpty(s.queued));
    var heap := Reinsert(keys, q.heap, c);
    if q.enabled && (keys[heap[0]] != keys[q.heap[0]] || q.heap[0] == c) {
      ReinsertIsRight(s, c, NonEmpty(s.queued), k, heap);
    } else {
      SkipIsSafe(s, c, NonEmpty(s.queued), k, heap);
    }
  }

  /** The first level of JobsDropped. */
  lemma ListsWith(config: seq<ChannelConfig>, present: set<ChannelId>, st: StateId, h: seq<ChannelId>, c: ChannelId, heap: seq<ChannelId>)
    requires HeapLists(config, present, st, h) && multiset(heap) == multiset(h) + multiset{c}
    requires c !in present && c < |config| && config[c].scheduled && config[c].state == st
    ensures HeapLists(config, present + {c}, st, heap)
  {
    forall d: ChannelId ensures Count(heap, d) == if d == c then Count(h, d) + 1 else Count(h, d) {
    }
  }

  lemma ListsWithout(config: seq<ChannelConfig>, present: set<ChannelId>, st: StateId, h: seq<ChannelId>, c: ChannelId, heap: seq<ChannelId>)
    requires HeapLists(config, present, st, h) && multiset(heap) == multiset(h) - multiset{c}
    ensures HeapLists(config, present - {c}, st, heap)
  {
    forall d: ChannelId ensures Count(heap, d) == if d == c && Count(h, c) > 0 then Count(h, d) - 1 else Count(h, d) {
    }
  }

  lemma ChannelRemoved(s: Sched, c: ChannelId, k: int)
    requires Listed(s, c, NonEmpty(s.queued) + {c}) && OrderedWith(s, c, k)
    requires s.queued[c] == []
    ensures var keys, st := ChannelKeys(s.queued), s.config[c].state;
      var h := s.queues[st].heap;
      && h != [] && Removable(keys, h, c)
      && var heap := ForcePop(keys, h, c);
      && Ordered(keys, heap)
      && HeapLists(s.config, NonEmpty(s.queued), st, heap)
      && (h[0] != c ==> heap != [] && h[0] in keys && keys[heap[0]] == keys[h[0]])
  {
    hide Coherent, StatesListed, Ordered, ForcePop, Removable, ChannelKeys;
    var present := NonEmpty(s.queued) + {c};
    var keys, st := ChannelKeys(s.queued), s.config[c].state;
    var h := s.queues[st].heap;
    assert Count(h, c) == 1;
    ChannelsDefined(s, c, present);
    HeapRestored(s, c, present, k);
    ListsWithout(s.config, present, st, h, c, ForcePop(keys, h, c));
    assert NonEmpty(s.queued) == present - {c};
    if h[0] != c {
      FrontAfterRemoval(keys, h, c, k);
    }
  }

  lemma JobsDroppedRestores(s: Sched, c: ChannelId, k: int)
    requires Listed(s, c, NonEmpty(s.queued) + {c}) && QueuesOk(s.queued) && OrderedWith(s, c, k)
    requires s.queued[c] == []
    ensures Coherent(JobsDropped(s, c))
  {
    var present := NonEmpty(s.queued) + {c};
    var keys, st := ChannelKeys(s.queued), s.config[c].state;
    hide Ordered, HeapLists, StatesListed, ChannelsListed, QueuesOk, OrderedWith, OrderedUnder, Coherent, Reinsert, NonEmpty;
    var q := s.queues[st];
    ChannelRemoved(s, c, k);
    ReadyIff(s, c, present);
    var heap := ForcePop(keys, q.heap, c);
    if !q.enabled || q.heap[0] != c {
      SkipIsSafe(s, c, present, k, heap);
    } else if heap != [] {
      ReinsertIsRight(s, c, present, k, heap);
    } else {
      RemovalIsRight(s, c, present, k, heap);
    }
  }
}
