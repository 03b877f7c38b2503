/** What the Scheduler's global mutex guards, on values: the packet heap of every channel, the
    channel heap of every monitor object ("state") and the heap of ready states.  Each function
    is one locked region, or a part of one, of src/SchedulerImpl.cpp or src/ChannelImpl.cpp.
  */
module Scheduling {
  import opened Heaps

  type ChannelId = nat
  type StateId = int

  /** nullptr, the monitor object of stateless channels. */
  const STATELESS: StateId := 0
  /** Timer::kMaxTime. */
  const MAX_TIME: int := 0x7FFF_FFFF_FFFF_FFFF

  datatype Packet = Packet(slot: nat, timestamp: int)

  datatype ChannelConfig = ChannelConfig(state: StateId, scheduled: bool, capacity: nat)

  datatype ChannelHeap = ChannelHeap(enabled: bool, heap: seq<ChannelId>)

  datatype Sched = Sched(
    config: seq<ChannelConfig>,
    queued: seq<seq<Packet>>,
    queues: map<StateId, ChannelHeap>,
    ready: seq<StateId>)

  // ---------- what the three comparators read ----------

  function PacketKeys(q: seq<Packet>): map<Packet, int> {
    map p | p in q :: p.timestamp
  }

  /** ChannelImpl::PeekNext; a channel with an empty queue has no key. */
  function ChannelKeys(queued: seq<seq<Packet>>): map<ChannelId, int> {
    map c: nat | c < |queued| && queued[c] != [] :: queued[c][0].timestamp
  }

  /** StateOrdering; a state with an empty channel heap has no key. */
  function StateKeys(keys: map<ChannelId, int>, queues: map<StateId, ChannelHeap>): map<StateId, int> {
    map st | st in queues && queues[st].heap != [] && queues[st].heap[0] in keys :: keys[queues[st].heap[0]]
  }

  // ---------- coherence ----------

  ghost predicate WellFormed(s: Sched) {
    && |s.queued| == |s.config|
    && forall c :: 0 <= c < |s.config| ==> s.config[c].state in s.queues
  }

  ghost function NonEmpty(queued: seq<seq<Packet>>): set<ChannelId> {
    set c: nat | c < |queued| && queued[c] != []
  }

  /** Each scheduled channel of `st` in `present` is in `heap` once, and nothing else is. */
  ghost predicate HeapLists(config: seq<ChannelConfig>, present: set<ChannelId>, st: StateId, heap: seq<ChannelId>) {
    forall c: ChannelId :: Count(heap, c) ==
      if c in present && c < |config| && config[c].scheduled && config[c].state == st then 1 else 0
  }

  ghost predicate ChannelsListed(s: Sched, present: set<ChannelId>) {
    forall st :: st in s.queues ==> HeapLists(s.config, present, st, s.queues[st].heap)
  }

  /** Each enabled state with a non-empty channel heap is ready once, and nothing else is. */
  ghost predicate StatesListed(queues: map<StateId, ChannelHeap>, ready: seq<StateId>) {
    forall st: StateId :: Count(ready, st) ==
      if st in queues && queues[st].enabled && queues[st].heap != [] then 1 else 0
  }

  /** Both upper levels are heaps when channels are compared by `keys`. */
  ghost predicate OrderedUnder(s: Sched, keys: map<ChannelId, int>) {
    && (forall st :: st in s.queues ==> Ordered(keys, s.queues[st].heap))
    && Ordered(StateKeys(keys, s.queues), s.ready)
  }

  ghost predicate QueueOk(q: seq<Packet>) {
    && Ordered(PacketKeys(q), q)
    && forall p :: p in q ==> p.timestamp < MAX_TIME
  }

  ghost predicate QueuesOk(queued: seq<seq<Packet>>) {
    forall c :: 0 <= c < |queued| ==> QueueOk(queued[c])
  }

  /** The invariant of the global mutex: the three levels agree on membership and on order. */
  ghost predicate Coherent(s: Sched) {
    && WellFormed(s)
    && QueuesOk(s.queued)
    && ChannelsListed(s, NonEmpty(s.queued))
    && StatesListed(s.queues, s.ready)
    && OrderedUnder(s, ChannelKeys(s.queued))
  }

  /** The packet queue of `c` has just changed and the upper levels have not been told: they
      still list the channels in `present` and are ordered by some former key of `c`. */
  ghost predicate Listed(s: Sched, c: ChannelId, present: set<ChannelId>) {
    && WellFormed(s)
    && c < |s.config|
    && s.config[c].scheduled
    && present - {c} == NonEmpty(s.queued) - {c}
    && ChannelsListed(s, present)
    && StatesListed(s.queues, s.ready)
  }

  ghost predicate OrderedWith(s: Sched, c: ChannelId, k: int) {
    OrderedUnder(s, ChannelKeys(s.queued)[c := k])
  }

  ghost predicate Stale(s: Sched, c: ChannelId, present: set<ChannelId>) {
    && Listed(s, c, present)
    && QueuesOk(s.queued)
    && exists k: int :: OrderedWith(s, c, k)
  }

  // ---------- SchedulerImpl::JobsArrived, JobsUpdated, JobsDropped ----------

  lemma InHeap(config: seq<ChannelConfig>, present: set<ChannelId>, st: StateId, heap: seq<ChannelId>, c: ChannelId)
    requires HeapLists(config, present, st, heap) && c in heap
    ensures c in present && c < |config| && config[c].state == st
  {
    assert Count(heap, c) > 0;
  }

  lemma InReady(queues: map<StateId, ChannelHeap>, ready: seq<StateId>, st: StateId)
    requires StatesListed(queues, ready) && st in ready
    ensures st in queues && queues[st].enabled && queues[st].heap != []
  {
    assert Count(ready, st) > 0;
  }

  /** Only the upper heaps differ. */
  ghost predicate SamePackets(s: Sched, s': Sched) {
    && s'.config == s.config
    && s'.queued == s.queued
    && s'.queues.Keys == s.queues.Keys
    && forall st :: st in s.queues ==> s'.queues[st].enabled == s.queues[st].enabled
  }

  function WithHeap(s: Sched, st: StateId, heap: seq<ChannelId>): (r: Sched)
    requires st in s.queues
    ensures SamePackets(s, r)
  {
    s.(queues := s.queues[st := s.queues[st].(heap := heap)])
  }

  /** In the channel heap of `c`'s state, everything but `c` can be compared. */
  lemma ChannelsDefined(s: Sched, c: ChannelId, present: set<ChannelId>)
    requires Listed(s, c, present)
    ensures var h, keys := s.queues[s.config[c].state].heap, ChannelKeys(s.queued);
      && (c in present ==> h != [] && Removable(keys, h, c))
      && (c !in present || c in keys ==> Comparable(keys, h))
  {
    var h, keys := s.queues[s.config[c].state].heap, ChannelKeys(s.queued);
    forall d | d in h ensures d in present && (d != c ==> d in keys) {
      InHeap(s.config, present, s.config[c].state, h, d);
      assert d != c ==> d in present - {c};
    }
  }

  /** With the channel heap of `c`'s state `st` replaced by `heap`, every ready state but `st`
      can be compared, and `st` can be unless the front of `heap` has no key. */
  lemma StatesDefined(s: Sched, c: ChannelId, present: set<ChannelId>, heap: seq<ChannelId>)
    requires Listed(s, c, present)
    ensures var keys, st := ChannelKeys(s.queued), s.config[c].state;
      var stateKeys := StateKeys(keys, WithHeap(s, st, heap).queues);
      && (heap != [] && heap[0] in keys ==> st in stateKeys)
      && (st in s.ready ==> Removable(stateKeys, s.ready, st))
      && (st !in s.ready || st in stateKeys ==> Comparable(stateKeys, s.ready))
      && (st in s.ready <==> s.queues[st].enabled && s.queues[st].heap != [])
  {
    var keys, st := ChannelKeys(s.queued), s.config[c].state;
    var stateKeys := StateKeys(keys, WithHeap(s, st, heap).queues);
    forall x | x in s.ready && x != st ensures x in stateKeys {
      InReady(s.queues, s.ready, x);
      var front := s.queues[x].heap[0];
      InHeap(s.config, present, x, s.queues[x].heap, front);
      assert front in present - {c};
    }
    assert st in s.ready <==> Count(s.ready, st) > 0;
  }

  /** JobsArrived: `c` was empty and now holds a packet.  The flag says whether it notifies. */
  function JobsArrived(s: Sched, c: ChannelId): (r: (Sched, bool))
    requires Listed(s, c, NonEmpty(s.queued) - {c}) && s.queued[c] != []
    ensures SamePackets(s, r.0)
  {
    ChannelsDefined(s, c, NonEmpty(s.queued) - {c});
    var keys := ChannelKeys(s.queued);
    var st := s.config[c].state;
    var q := s.queues[st];
    var earliest := if q.heap == [] then MAX_TIME else keys[q.heap[0]];
    var heap := Push(keys, q.heap, c);
    var s' := WithHeap(s, st, heap);
    if q.enabled && keys[heap[0]] < earliest then
      StatesDefined(s, c, NonEmpty(s.queued) - {c}, heap);
      var stateKeys := StateKeys(keys, s'.queues);
      var ready := if earliest != MAX_TIME then Reinsert(stateKeys, s.ready, st) else Push(stateKeys, s.ready, st);
      (s'.(ready := ready), true)
    else
      (s', false)
  }

  /** JobsUpdated: the earliest packet of `c` has changed, by a push or by a removal. */
  function JobsUpdated(s: Sched, c: ChannelId, wasPush: bool): (r: (Sched, bool))
    requires Listed(s, c, NonEmpty(s.queued)) && s.queued[c] != []
    ensures SamePackets(s, r.0) && (r.1 ==> wasPush)
  {
    ChannelsDefined(s, c, NonEmpty(s.queued));
    var keys := ChannelKeys(s.queued);
    var st := s.config[c].state;
    var q := s.queues[st];
    var wasTop := q.heap[0] == c;
    var earliest := keys[q.heap[0]];
    var heap := Reinsert(keys, q.heap, c);
    assert heap[0] in keys;
    var s' := WithHeap(s, st, heap);
    if q.enabled && (keys[heap[0]] != earliest || wasTop) then
      StatesDefined(s, c, NonEmpty(s.queued), heap);
      var stateKeys := StateKeys(keys, s'.queues);
      (s'.(ready := Reinsert(stateKeys, s.ready, st)), wasPush)
    else
      (s', false)
  }

  /** JobsDropped: the packet queue of `c` has become empty, so `c` has no key any more. */
  function JobsDropped(s: Sched, c: ChannelId): (r: Sched)
    requires Listed(s, c, NonEmpty(s.queued) + {c}) && s.queued[c] == []
    ensures SamePackets(s, r)
  {
    ChannelsDefined(s, c, NonEmpty(s.queued) + {c});
    var keys := ChannelKeys(s.queued);
    var st := s.config[c].state;
    var q := s.queues[st];
    var wasTop := q.heap[0] == c;
    var heap := ForcePop(keys, q.heap, c);
    var s' := WithHeap(s, st, heap);
    if q.enabled && wasTop then
      StatesDefined(s, c, NonEmpty(s.queued) + {c}, heap);
      var stateKeys := StateKeys(keys, s'.queues);
      var ready := if heap != [] then Reinsert(stateKeys, s.ready, st) else ForcePop(stateKeys, s.ready, st);
      s'.(ready := ready)
    else
      s'
  }
}
