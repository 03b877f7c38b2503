/** The packet queues of the channels and the worker's two locked regions, on top of the upper
    heaps.  Every function here takes a coherent scheduler to a coherent one. */
module Channels {
  import opened Heaps
  import opened Scheduling
  import opened Coherence

  function WithQueue(s: Sched, c: ChannelId, q: seq<Packet>): (r: Sched)
    requires c < |s.queued|
  {
    s.(queued := s.queued[c := q])
  }

  // ---------- the packet heap ----------

  function Enqueue(q: seq<Packet>, p: Packet): (r: seq<Packet>)
    requires QueueOk(q) && p.timestamp < MAX_TIME
    ensures QueueOk(r)
    ensures multiset(r) == multiset(q) + multiset{p}
    ensures r != [] && r[0].timestamp == if q == [] || p.timestamp < q[0].timestamp then p.timestamp else q[0].timestamp
  {
    EnqueueOk(q, p);
    FrontAfterAdding(PacketKeys(q + [p]), q, p, Push(PacketKeys(q + [p]), q, p));
    Push(PacketKeys(q + [p]), q, p)
  }

  lemma EnqueueOk(q: seq<Packet>, p: Packet)
    requires QueueOk(q) && p.timestamp < MAX_TIME
    ensures Comparable(PacketKeys(q + [p]), q)
    ensures Ordered(PacketKeys(q + [p]), q) && Ordered(PacketKeys(q + [p]), Push(PacketKeys(q + [p]), q, p))
    ensures QueueOk(Push(PacketKeys(q + [p]), q, p))
  {
    var keys := PacketKeys(q + [p]);
    SameKeysSameOrder(PacketKeys(q), keys, q);
    PushOrders(keys, q, p);
    var r := Push(keys, q, p);
    SameElements(r, q + [p]);
    SameKeysSameOrder(keys, PacketKeys(r), r);
  }

  lemma FrontIsFirst(q: seq<Packet>, p: Packet)
    requires QueueOk(q) && p in q
    ensures q[0].timestamp <= p.timestamp
  {
    FrontIsEarliest(PacketKeys(q), q);
  }

  function Dequeue(q: seq<Packet>): (r: seq<Packet>)
    requires QueueOk(q) && q != []
    ensures QueueOk(r)
    ensures multiset(r) == multiset(q) - multiset{q[0]}
    ensures forall p :: p in q ==> q[0].timestamp <= p.timestamp
  {
    DequeueOk(q);
    Pop(PacketKeys(q), q)
  }

  lemma DequeueOk(q: seq<Packet>)
    requires QueueOk(q) && q != []
    ensures Comparable(PacketKeys(q), q[1..])
    ensures QueueOk(Pop(PacketKeys(q), q))
    ensures forall p :: p in q ==> q[0].timestamp <= p.timestamp
  {
    var keys := PacketKeys(q);
    assert Comparable(keys, q[1..]);
    PopOrders(keys, q);
    var r := Pop(keys, q);
    forall p | p in r ensures p in q {
      assert p in multiset(r);
      assert p in multiset(q);
    }
    SameKeysSameOrder(keys, PacketKeys(r), r);
    FrontIsEarliest(keys, q);
  }

  // ---------- a changed packet queue, before the upper heaps are told ----------

  /** The key a channel had, for the channels that had one. */
  function KeyOf(q: seq<Packet>): int {
    if q == [] then 0 else q[0].timestamp
  }

  /** Order in the upper heaps survives any change of keys outside of them. */
  lemma OrderSurvives(s: Sched, s': Sched, keys: map<ChannelId, int>, keys': map<ChannelId, int>)
    requires OrderedUnder(s, keys) && StatesListed(s.queues, s.ready)
    requires s'.queues == s.queues && s'.ready == s.ready
    requires forall st, c :: st in s.queues && c in s.queues[st].heap && c in keys ==> c in keys' && keys'[c] == keys[c]
    ensures OrderedUnder(s', keys')
  {
    forall st | st in s.queues ensures Ordered(keys', s.queues[st].heap) {
      var h := s.queues[st].heap;
      forall i | 0 <= i < |h| ensures h[i] in keys' && keys'[h[i]] == keys[h[i]] {
        assert h[i] in h;
      }
      SameKeysSameOrder(keys, keys', h);
    }
    forall i | 0 <= i < |s.ready|
      ensures s.ready[i] in StateKeys(keys', s.queues)
      ensures StateKeys(keys', s.queues)[s.ready[i]] == StateKeys(keys, s.queues)[s.ready[i]]
    {
      var st := s.ready[i];
      assert st in s.ready;
      InReady(s.queues, s.ready, st);
      assert s.queues[st].heap[0] in s.queues[st].heap;
    }
    SameKeysSameOrder(StateKeys(keys, s.queues), StateKeys(keys', s.queues), s.ready);
  }

  lemma NonEmptyAfter(s: Sched, c: ChannelId, q: seq<Packet>)
    requires c < |s.queued|
    ensures var was, now := NonEmpty(s.queued), NonEmpty(WithQueue(s, c, q).queued);
      && (s.queued[c] == [] && q != [] ==> was == now - {c})
      && (s.queued[c] != [] && q != [] ==> was == now)
      && (s.queued[c] != [] && q == [] ==> was == now + {c})
  {
  }

  lemma QueueChanged(s: Sched, c: ChannelId, q: seq<Packet>)
    requires Coherent(s) && c < |s.config| && s.config[c].scheduled && QueueOk(q)
    ensures var s' := WithQueue(s, c, q);
      && Listed(s', c, NonEmpty(s.queued))
      && QueuesOk(s'.queued)
      && OrderedWith(s', c, KeyOf(s.queued[c]))
  {
    hide HeapLists, StatesListed, Ordered, QueueOk, OrderedUnder, StateKeys;
    var s' := WithQueue(s, c, q);
    var keys, keys' := ChannelKeys(s.queued), ChannelKeys(s'.queued)[c := KeyOf(s.queued[c])];
    forall st, d | st in s.queues && d in s.queues[st].heap && d in keys
      ensures d in keys' && keys'[d] == keys[d]
    {
    }
    OrderSurvives(s, s', keys, keys');
  }

  // ---------- ChannelImpl::Push, ChannelImpl::PopNext ----------

  /** The locked region of ChannelImpl::Push.  The flag says whether a worker is notified. */
  function PushPacket(s: Sched, c: ChannelId, p: Packet): (r: (Sched, bool))
    requires Coherent(s) && c < |s.config| && p.timestamp < MAX_TIME
  {
    var q := s.queued[c];
    var earliest := if q == [] then MAX_TIME else q[0].timestamp;
    var q' := Enqueue(q, p);
    var s' := WithQueue(s, c, q');
    if s.config[c].scheduled && q'[0].timestamp < earliest then
      QueueChanged(s, c, q');
      NonEmptyAfter(s, c, q');
      if earliest == MAX_TIME then
        JobsArrived(s', c)
      else
        JobsUpdated(s', c, true)
    else
      (s', false)
  }

  /** The branches of a push, in terms of the changed queue. */
  lemma PushBranches(s: Sched, c: ChannelId, p: Packet)
    requires Coherent(s) && c < |s.config| && p.timestamp < MAX_TIME && QueueOk(s.queued[c])
    ensures var q, q' := s.queued[c], Enqueue(s.queued[c], p);
      var earliest, s' := if q == [] then MAX_TIME else q[0].timestamp, WithQueue(s, c, q');
      if !s.config[c].scheduled || q'[0].timestamp >= earliest then
        PushPacket(s, c, p) == (s', false)
      else
        && c < |s'.config| && s'.queued[c] != []
        && (if earliest == MAX_TIME then
             Listed(s', c, NonEmpty(s'.queued) - {c}) && PushPacket(s, c, p) == JobsArrived(s', c)
           else
             Listed(s', c, NonEmpty(s'.queued)) && PushPacket(s, c, p) == JobsUpdated(s', c, true))
  {
    hide JobsArrived, JobsUpdated, NonEmpty, Listed, Enqueue;
    var q' := Enqueue(s.queued[c], p);
    if s.config[c].scheduled {
      QueueChanged(s, c, q');
      NonEmptyAfter(s, c, q');
    }
  }

  /** ChannelImpl::PopNext: the earliest packet leaves the queue. */
  function PopNext(s: Sched, c: ChannelId): (r: (Sched, Packet))
    requires Coherent(s) && c < |s.config| && s.queued[c] != []
  {
    var q := s.queued[c];
    var q' := Dequeue(q);
    var s' := WithQueue(s, c, q');
    if s.config[c].scheduled then
      QueueChanged(s, c, q');
      NonEmptyAfter(s, c, q');
      if q' == [] then
        (JobsDropped(s', c), q[0])
      else if q[0] != q'[0] then
        (JobsUpdated(s', c, false).0, q[0])
      else
        (s', q[0])
    else
      (s', q[0])
  }

  lemma StillListed(s: Sched, c: ChannelId, q: seq<Packet>)
    requires Coherent(s) && c < |s.config|
    requires s.config[c].scheduled ==> s.queued[c] != [] && q != []
    ensures ChannelsListed(WithQueue(s, c, q), NonEmpty(WithQueue(s, c, q).queued))
    ensures forall st :: st in s.queues && c in s.queues[st].heap ==> s.config[c].scheduled
  {
    hide StatesListed, OrderedUnder, QueueOk;
    forall st | st in s.queues
      ensures HeapLists(s.config, NonEmpty(WithQueue(s, c, q).queued), st, s.queues[st].heap)
      ensures c in s.queues[st].heap ==> s.config[c].scheduled
    {
      assert HeapLists(s.config, NonEmpty(s.queued), st, s.queues[st].heap);
      assert c in s.queues[st].heap ==> Count(s.queues[st].heap, c) > 0;
    }
  }

  /** The upper heaps are not told: the channel is polled, or its key has not changed. */
  lemma QueueChangedQuietly(s: Sched, c: ChannelId, q: seq<Packet>)
    requires Coherent(s) && c < |s.config| && QueueOk(q)
    requires s.config[c].scheduled ==> s.queued[c] != [] && q != [] && q[0].timestamp == s.queued[c][0].timestamp
    ensures Coherent(WithQueue(s, c, q))
  {
    hide Ordered, QueueOk, OrderedUnder, StateKeys, ChannelsListed, NonEmpty, StatesListed;
    var s' := WithQueue(s, c, q);
    var keys, keys' := ChannelKeys(s.queued), ChannelKeys(s'.queued);
    StillListed(s, c, q);
    forall st, d | st in s.queues && d in s.queues[st].heap && d in keys
      ensures d in keys' && keys'[d] == keys[d]
    {
    }
    OrderSurvives(s, s', keys, keys');
  }

  /** Push keeps the levels coherent, and enqueues exactly `p`. */
  lemma PushPacketCoherent(s: Sched, c: ChannelId, p: Packet)
    requires Coherent(s) && c < |s.config| && p.timestamp < MAX_TIME
    ensures var s' := PushPacket(s, c, p).0;
      && Coherent(s')
      && SamePackets(WithQueue(s, c, Enqueue(s.queued[c], p)), s')
  {
    hide OrderedWith, OrderedUnder, Ordered, QueueOk, HeapLists, StatesListed, NonEmpty, JobsArrived, JobsUpdated;
    var q := s.queued[c];
    var q' := Enqueue(q, p);
    var s' := WithQueue(s, c, q');
    if q != [] {
      KeyIsInTime(s, c);
    }
    if s.config[c].scheduled && (q == [] || q'[0].timestamp < q[0].timestamp) {
      QueueChanged(s, c, q');
      NonEmptyAfter(s, c, q');
      if q == [] {
        JobsArrivedRestores(s', c, KeyOf(q));
      } else {
        JobsUpdatedRestores(s', c, KeyOf(q), true);
      }
    } else {
      QueueChangedQuietly(s, c, q');
    }
  }

  /** PopNext keeps the levels coherent, and takes exactly one packet, a minimal one. */
  lemma PopNextCoherent(s: Sched, c: ChannelId)
    requires Coherent(s) && c < |s.config| && s.queued[c] != []
    ensures var (s', p) := PopNext(s, c);
      && Coherent(s')
      && p == s.queued[c][0]
      && SamePackets(WithQueue(s, c, Dequeue(s.queued[c])), s')
  {
    hide OrderedWith, OrderedUnder, Ordered, QueueOk, HeapLists, StatesListed, NonEmpty, JobsDropped, JobsUpdated;
    var q := s.queued[c];
    var q' := Dequeue(q);
    var s' := WithQueue(s, c, q');
    if s.config[c].scheduled && q' == [] {
      QueueChanged(s, c, q');
      NonEmptyAfter(s, c, q');
      JobsDroppedRestores(s', c, KeyOf(q));
    } else if s.config[c].scheduled && q[0] != q'[0] {
      QueueChanged(s, c, q');
      NonEmptyAfter(s, c, q');
      JobsUpdatedRestores(s', c, KeyOf(q), false);
    } else {
      QueueChangedQuietly(s, c, q');
    }
  }
}
