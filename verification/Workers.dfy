/** The two locked regions of SchedulerImpl::RunTasks, and which packet a worker gets. */
module Workers {
  import opened Heaps
  import opened Scheduling
  import opened Coherence
  import opened Channels

  datatype Task = Task(state: StateId, channel: ChannelId, packet: Packet)

  /** A queued packet a worker may take: of a scheduled channel whose state is enabled. */
  ghost predicate Eligible(s: Sched, c: ChannelId, p: Packet)
    requires WellFormed(s)
  {
    && c < |s.config|
    && s.config[c].scheduled
    && s.queues[s.config[c].state].enabled
    && p in s.queued[c]
  }

  /** The front state, its front channel: what the worker's assertions claim about them. */
  lemma FrontIsSound(s: Sched)
    requires Coherent(s) && s.ready != []
    ensures var st := s.ready[0];
      && st in s.queues && s.queues[st].enabled && s.queues[st].heap != []
      && var c := s.queues[st].heap[0];
      && c < |s.config| && s.config[c].state == st && s.config[c].scheduled
      && s.queued[c] != []
      && Eligible(s, c, s.queued[c][0])
  {
    hide OrderedUnder, QueuesOk;
    var st := s.ready[0];
    assert st in s.ready;
    InReady(s.queues, s.ready, st);
    var h := s.queues[st].heap;
    assert h[0] in h;
    InHeap(s.config, NonEmpty(s.queued), st, h, h[0]);
    assert Count(h, h[0]) > 0;
  }

  /** The front state is disabled and leaves the ready heap. */
  function Disable(s: Sched): (r: Sched)
    requires Coherent(s) && s.ready != []
  {
    FrontIsSound(s);
    var st := s.ready[0];
    assert forall x :: x in s.ready[1..] ==> x in s.ready;
    s.(queues := s.queues[st := s.queues[st].(enabled := false)],
       ready := Pop(StateKeys(ChannelKeys(s.queued), s.queues), s.ready))
  }

  /** The first locked region, once a state is ready: a stateless task keeps its state enabled. */
  function Take(s: Sched): (r: (Sched, Task))
    requires Coherent(s) && s.ready != []
  {
    FrontIsSound(s);
    var st := s.ready[0];
    var c := s.queues[st].heap[0];
    if st != STATELESS then
      DisableCoherent(s);
      var (s', p) := PopNext(Disable(s), c);
      (s', Task(st, c, p))
    else
      var (s', p) := PopNext(s, c);
      (s', Task(st, c, p))
  }

  /** The second locked region: the state of a finished task is enabled again. */
  function Finish(s: Sched, st: StateId): (r: Sched)
    requires Coherent(s) && st in s.queues && !s.queues[st].enabled
  {
    FinishDefined(s, st);
    var s' := s.(queues := s.queues[st := s.queues[st].(enabled := true)]);
    if s'.queues[st].heap != [] then
      s'.(ready := Push(StateKeys(ChannelKeys(s.queued), s'.queues), s.ready, st))
    else
      s'
  }

  /** Enabling and disabling change no key. */
  lemma SameStateKeys(s: Sched, st: StateId, enabled: bool)
    requires st in s.queues
    ensures StateKeys(ChannelKeys(s.queued), s.queues[st := s.queues[st].(enabled := enabled)]) == StateKeys(ChannelKeys(s.queued), s.queues)
  {
  }

  /** The branches of the two regions, in terms of the state with the changed flag. */
  lemma DisableParts(s: Sched)
    requires Coherent(s) && s.ready != []
    ensures s.ready[0] in s.queues
    ensures var st := s.ready[0];
      var flagged := s.(queues := s.queues[st := s.queues[st].(enabled := false)]);
      var stateKeys := StateKeys(ChannelKeys(flagged.queued), flagged.queues);
      && Comparable(stateKeys, flagged.ready[1..])
      && Disable(s) == flagged.(ready := Pop(stateKeys, flagged.ready))
  {
    hide HeapLists, QueuesOk, ChannelsListed, StatesListed, WellFormed, StateKeys, ChannelKeys, Pop;
    FrontIsSound(s);
    SameStateKeys(s, s.ready[0], false);
    assert forall x :: x in s.ready[1..] ==> x in s.ready;
  }

  lemma FinishParts(s: Sched, st: StateId)
    requires Coherent(s) && st in s.queues && !s.queues[st].enabled
    ensures var flagged := s.(queues := s.queues[st := s.queues[st].(enabled := true)]);
      var stateKeys := StateKeys(ChannelKeys(flagged.queued), flagged.queues);
      if s.queues[st].heap == [] then Finish(s, st) == flagged else
        && st in stateKeys && Comparable(stateKeys, flagged.ready)
        && Finish(s, st) == flagged.(ready := Push(stateKeys, flagged.ready, st))
  {
    hide Coherent, StateKeys, ChannelKeys, Push;
    FinishDefined(s, st);
  }

  lemma DisableLists(s: Sched)
    requires Coherent(s) && s.ready != []
    ensures StatesListed(Disable(s).queues, Disable(s).ready)
  {
    hide HeapLists, QueuesOk, OrderedUnder, ChannelsListed, WellFormed, StateKeys, ChannelKeys, Pop;
    FrontIsSound(s);
    var st := s.ready[0];
    assert Count(s.ready, st) == 1;
  }

  lemma DisableCoherent(s: Sched)
    requires Coherent(s) && s.ready != []
    ensures Coherent(Disable(s))
  {
    hide HeapLists, QueuesOk, NonEmpty, ChannelKeys, StatesListed, StateKeys, Ordered, Pop, Disable;
    DisableParts(s);
    PopOrdersHeap(StateKeys(ChannelKeys(s.queued), s.queues), s.ready);
    SameStateKeys(s, s.ready[0], false);
    DisableLists(s);
  }

  lemma FinishDefined(s: Sched, st: StateId)
    requires Coherent(s) && st in s.queues && !s.queues[st].enabled
    ensures st !in s.ready
    ensures StateKeys(ChannelKeys(s.queued), s.queues[st := s.queues[st].(enabled := true)]) == StateKeys(ChannelKeys(s.queued), s.queues)
    ensures Comparable(StateKeys(ChannelKeys(s.queued), s.queues), s.ready)
    ensures s.queues[st].heap != [] ==> st in StateKeys(ChannelKeys(s.queued), s.queues)
  {
    hide HeapLists, QueueOk, NonEmpty;
    assert Count(s.ready, st) == 0;
    SameStateKeys(s, st, true);
    if s.queues[st].heap != [] {
      assert s.queues[st].heap[0] in s.queues[st].heap;
    }
  }

  lemma FinishCoherent(s: Sched, st: StateId)
    requires Coherent(s) && st in s.queues && !s.queues[st].enabled
    ensures Coherent(Finish(s, st))
  {
    hide HeapLists, QueueOk, NonEmpty, ChannelKeys;
    FinishDefined(s, st);
    assert Count(s.ready, st) == 0;
    if s.queues[st].heap != [] {
      PushOrders(StateKeys(ChannelKeys(s.queued), s.queues), s.ready, st);
    }
    hide StateKeys, Ordered;
  }

  /** Earliest first: of all eligible packets in all channels, the worker takes a minimal one. */
  lemma EarliestFirst(s: Sched, c: ChannelId, p: Packet)
    requires Coherent(s) && Eligible(s, c, p)
    ensures s.ready != []
    ensures Take(s).1.packet.timestamp <= p.timestamp
  {
    hide QueueOk, PopNext, Take;
    var x := s.config[c].state;
    var keys := ChannelKeys(s.queued);
    var stateKeys := StateKeys(keys, s.queues);
    FrontIsFirst(s.queued[c], p);
    assert Count(s.queues[x].heap, c) == 1;
    assert c in s.queues[x].heap;
    FrontIsEarliest(keys, s.queues[x].heap);
    assert stateKeys[x] == keys[s.queues[x].heap[0]] <= keys[c];
    assert Count(s.ready, x) == 1;
    assert x in s.ready;
    FrontIsEarliest(stateKeys, s.ready);
    FrontIsSound(s);
    TakenIsFront(s);
  }

  lemma TakenIsFront(s: Sched)
    requires Coherent(s) && s.ready != []
    ensures var t := Take(s).1;
      && t.state == s.ready[0]
      && t.channel == s.queues[t.state].heap[0]
      && t.channel < |s.queued| && s.queued[t.channel] != []
      && t.packet == s.queued[t.channel][0]
  {
    hide Ordered, QueueOk, NonEmpty, HeapLists, StatesListed;
    FrontIsSound(s);
    var c := s.queues[s.ready[0]].heap[0];
    if s.ready[0] != STATELESS {
      DisableCoherent(s);
      PopNextCoherent(Disable(s), c);
    } else {
      PopNextCoherent(s, c);
    }
  }

  /** Take removes one eligible packet and, if its channel is stateful, disables the state. */
  lemma TakeEffect(s: Sched)
    requires Coherent(s) && s.ready != []
    ensures var (s', t) := Take(s);
      && Coherent(s')
      && Eligible(s, t.channel, t.packet) && t.packet == s.queued[t.channel][0]
      && t.state == s.config[t.channel].state
      && s'.config == s.config
      && s'.queued == s.queued[t.channel := Dequeue(s.queued[t.channel])]
      && s'.queues.Keys == s.queues.Keys
      && forall x :: x in s.queues ==>
           s'.queues[x].enabled == (s.queues[x].enabled && (x != t.state || t.state == STATELESS))
  {
    hide Ordered, QueuesOk, NonEmpty, HeapLists, StatesListed, ChannelsListed, OrderedUnder, PopNext, Pop, StateKeys, ChannelKeys, Dequeue;
    FrontIsSound(s);
    TakenIsFront(s);
    var c := s.queues[s.ready[0]].heap[0];
    if s.ready[0] != STATELESS {
      DisableCoherent(s);
      PopNextCoherent(Disable(s), c);
    } else {
      PopNextCoherent(s, c);
    }
  }

  /** Finish changes no queue and enables exactly one state. */
  lemma FinishEffect(s: Sched, st: StateId)
    requires Coherent(s) && st in s.queues && !s.queues[st].enabled
    ensures var s' := Finish(s, st);
      && Coherent(s')
      && s'.config == s.config && s'.queued == s.queued
      && s'.queues.Keys == s.queues.Keys
      && forall x :: x in s.queues ==> s'.queues[x].enabled == (s.queues[x].enabled || x == st)
  {
    hide Coherent, StateKeys, ChannelKeys, Push, Comparable;
    FinishCoherent(s, st);
    FinishParts(s, st);
  }

  /** A worker finds nothing to do exactly when no packet is eligible. */
  lemma ReadyIffEligible(s: Sched)
    requires Coherent(s)
    ensures s.ready != [] <==> exists c, p :: Eligible(s, c, p)
  {
    if s.ready != [] {
      FrontIsSound(s);
    }
    if c, p :| Eligible(s, c, p) {
      EarliestFirst(s, c, p);
    }
  }

  /** `t` is earlier than every packet queued for the scheduled channels of `st`. */
  ghost predicate BeforeAll(s: Sched, st: StateId, t: int)
    requires WellFormed(s)
  {
    forall c, p :: 0 <= c < |s.config| && s.config[c].scheduled && s.config[c].state == st && p in s.queued[c] ==>
      t < p.timestamp
  }

  lemma BeforeAllIff(s: Sched, st: StateId, t: int)
    requires Coherent(s) && st in s.queues
    ensures var h, keys := s.queues[st].heap, ChannelKeys(s.queued);
      && (h != [] ==> h[0] in keys)
      && (BeforeAll(s, st, t) <==> h == [] || t < keys[h[0]])
  {
    hide QueueOk, StateKeys, StatesListed;
    var h, keys := s.queues[st].heap, ChannelKeys(s.queued);
    FrontIsEarliest(keys, h);
    if h != [] {
      assert h[0] in h;
      InHeap(s.config, NonEmpty(s.queued), st, h, h[0]);
      assert Count(h, h[0]) > 0;
      assert s.queued[h[0]][0] in s.queued[h[0]];
    }
    forall c, p | 0 <= c < |s.config| && s.config[c].scheduled && s.config[c].state == st && p in s.queued[c]
      ensures h != [] && keys[h[0]] <= p.timestamp
    {
      FrontIsFirst(s.queued[c], p);
      assert Count(h, c) == 1;
      assert c in h;
    }
  }

  lemma ArrivalNotifies(s: Sched, c: ChannelId, p: Packet)
    requires Coherent(s) && c < |s.config| && p.timestamp < MAX_TIME
    requires s.config[c].scheduled && s.queued[c] == []
    ensures PushPacket(s, c, p).1 <==>
      s.queues[s.config[c].state].enabled && BeforeAll(s, s.config[c].state, p.timestamp)
  {
    hide Ordered, QueueOk, NonEmpty, HeapLists, StatesListed, StateKeys, BeforeAll, OrderedUnder, OrderedWith;
    var q' := Enqueue(s.queued[c], p);
    var s' := WithQueue(s, c, q');
    QueueChanged(s, c, q');
    NonEmptyAfter(s, c, q');
    ChannelAdded(s', c, KeyOf(s.queued[c]));
    BeforeAllIff(s, s.config[c].state, p.timestamp);
    var keys', h := ChannelKeys(s'.queued), s.queues[s.config[c].state].heap;
    HeapRestored(s', c, NonEmpty(s.queued), KeyOf(s.queued[c]));
    FrontAfterAdding(keys', h, c, Push(keys', h, c));
  }

  lemma UpdateNotifies(s: Sched, c: ChannelId, p: Packet)
    requires Coherent(s) && c < |s.config| && p.timestamp < MAX_TIME
    requires s.config[c].scheduled && s.queued[c] != [] && p.timestamp < s.queued[c][0].timestamp
    ensures PushPacket(s, c, p).1 <==>
      s.queues[s.config[c].state].enabled && BeforeAll(s, s.config[c].state, p.timestamp)
  {
    hide Push, ForcePop;
    hide Ordered, QueueOk, NonEmpty, HeapLists, StatesListed, StateKeys, BeforeAll, OrderedUnder, OrderedWith;
    var q' := Enqueue(s.queued[c], p);
    var s' := WithQueue(s, c, q');
    QueueChanged(s, c, q');
    NonEmptyAfter(s, c, q');
    FrontAfterMove(s', c, KeyOf(s.queued[c]));
    KeyIsInTime(s, c);
    BeforeAllIff(s, s.config[c].state, p.timestamp);
  }

  /** A push wakes a worker exactly when the state is enabled and the packet is strictly earlier
      than everything queued for the state. */
  lemma PushNotifiesIff(s: Sched, c: ChannelId, p: Packet)
    requires Coherent(s) && c < |s.config| && p.timestamp < MAX_TIME
    ensures PushPacket(s, c, p).1 <==>
      && s.config[c].scheduled
      && s.queues[s.config[c].state].enabled
      && BeforeAll(s, s.config[c].state, p.timestamp)
  {
    if s.config[c].scheduled {
      if s.queued[c] == [] {
        ArrivalNotifies(s, c, p);
      } else if p.timestamp < s.queued[c][0].timestamp {
        UpdateNotifies(s, c, p);
      } else {
        assert s.queued[c][0] in s.queued[c];
        KeyIsInTime(s, c);
      }
    }
  }
}
