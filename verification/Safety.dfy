/** What holds in every reachable state, and what does not. */
module Safety {
  import opened Heaps
  import opened Scheduling
  import opened Channels
  import opened Workers
  import opened Refinement
  import opened Runs

  /** `s` is reached from a fresh scheduler with these channels and that many workers. */
  ghost predicate Reachable(config: seq<ChannelConfig>, workerCount: nat, s: System)
    ensures Reachable(config, workerCount, s) ==> Inv(s) && s.sched.config == config && s.workerCount == workerCount
  {
    LeadsToInv(config, workerCount, s);
    workerCount > 0 && exists events :: Leads(config, workerCount, events, s)
  }

  ghost predicate Leads(config: seq<ChannelConfig>, workerCount: nat, events: seq<Event>, s: System)
    requires workerCount > 0
  {
    InitialInv(config, workerCount);
    IsRun(Initial(config, workerCount), events) && After(Initial(config, workerCount), events) == s
  }

  lemma LeadsToInv(config: seq<ChannelConfig>, workerCount: nat, s: System)
    ensures workerCount > 0 && (exists events :: Leads(config, workerCount, events, s)) ==>
      Inv(s) && s.sched.config == config && s.workerCount == workerCount
  {
    hide Inv;
    if workerCount > 0 && exists events :: Leads(config, workerCount, events, s) {
      var events :| Leads(config, workerCount, events, s);
      InitialInv(config, workerCount);
      RunKeeps(Initial(config, workerCount), events);
    }
  }

  /** Whatever the interleaving, a worker that takes a task takes a packet no later than any
      packet queued in any scheduled channel whose state is enabled. */
  lemma WorkersTakeEarliest(config: seq<ChannelConfig>, workerCount: nat, s: System, c: ChannelId, p: Packet)
    requires Reachable(config, workerCount, s)
    requires Eligible(s.sched, c, p)
    ensures s.sched.ready != []
    ensures Take(s.sched).1.packet.timestamp <= p.timestamp
  {
    hide SlotsConserved, MutuallyExclusive;
    EarliestFirst(s.sched, c, p);
  }

  /** The three levels agree in every reachable state, in the words of the data structures. */
  lemma LevelsAgree(config: seq<ChannelConfig>, workerCount: nat, s: System)
    requires Reachable(config, workerCount, s)
    ensures forall c :: 0 <= c < |config| && config[c].scheduled ==>
      Count(s.sched.queues[config[c].state].heap, c) == (if s.sched.queued[c] != [] then 1 else 0)
    ensures forall st :: st in s.sched.queues ==>
      Count(s.sched.ready, st) == (if s.sched.queues[st].enabled && s.sched.queues[st].heap != [] then 1 else 0)
  {
    hide SlotsConserved, MutuallyExclusive, QueueOk, OrderedUnder;
  }

  /** Of all callbacks of one monitor object, at most one runs; the object's channels are
      disabled exactly while one does. */
  lemma OneCallbackPerState(config: seq<ChannelConfig>, workerCount: nat, s: System, st: StateId)
    requires Reachable(config, workerCount, s)
    requires st != STATELESS
    ensures s.workers[Executing(st)] <= 1
    ensures st in s.sched.queues ==> (s.workers[Executing(st)] == 1 <==> !s.sched.queues[st].enabled)
  {
  }

  /** No lost wake-up: while the scheduler runs and a state is ready, some worker is not blocked. */
  lemma NoLostWakeUp(config: seq<ChannelConfig>, workerCount: nat, s: System)
    requires Reachable(config, workerCount, s)
    requires s.phase.Running? && s.sched.ready != []
    ensures exists w :: w in s.workers && w != Blocked
  {
    hide Coherent, SlotsConserved, MutuallyExclusive, PacketsConserved;
    OtherThan(s.workers, Blocked);
  }

  /** No packet is lost, duplicated or invented. */
  lemma EveryPacketAccounted(config: seq<ChannelConfig>, workerCount: nat, s: System, c: ChannelId, p: Packet)
    requires Reachable(config, workerCount, s)
    requires c < |config|
    ensures s.pushed[(c, p)] == s.retrieved[(c, p)] + s.dropped[(c, p)] + Count(s.sched.queued[c], p)
  {
    hide SlotsConserved, MutuallyExclusive, QueueOk, OrderedUnder;
    BagCounts(s.sched.queued, c, p);
  }

  // ---------- slots ----------

  /** Every slot of every channel's pool is in exactly one place. */
  lemma EverySlotAccounted(config: seq<ChannelConfig>, workerCount: nat, s: System, c: ChannelId, k: Slot)
    requires Reachable(config, workerCount, s)
    ensures Holders(s, c, k) == if c < |config| && k < config[c].capacity then 1 else 0
  {
  }

  lemma {:induction false} DistinctBelow(f: seq<Slot>, n: nat)
    requires forall k: Slot :: Count(f, k) <= if k < n then 1 else 0
    ensures |f| <= n
    decreases n
  {
    if f == [] {
    } else {
      assert Count(f, f[0]) > 0;
      if n - 1 in f {
        var i := IndexOf(f, n - 1);
        var rest := f[..i] + f[i + 1..];
        WithoutOne(f, i);
        forall k: Slot ensures Count(rest, k) <= if k < n - 1 then 1 else 0 {
          assert Count(rest, k) == if k == n - 1 then Count(f, k) - 1 else Count(f, k);
        }
        DistinctBelow(rest, n - 1);
      } else {
        forall k: Slot ensures Count(f, k) <= if k < n - 1 then 1 else 0 {
          assert k == n - 1 ==> Count(f, k) == 0;
        }
        DistinctBelow(f, n - 1);
      }
    }
  }

  function Slots(q: seq<Packet>): seq<Slot> {
    seq(|q|, i requires 0 <= i < |q| => q[i].slot)
  }

  lemma {:induction false} SlotsCount(q: seq<Packet>, k: Slot)
    ensures Count(Slots(q), k) == SlotCount(q, k)
  {
    if q == [] {
    } else {
      assert Slots(q) == [q[0].slot] + Slots(q[1..]);
      SlotsCount(q[1..], k);
    }
  }

  lemma WithinCapacity(s: System, c: ChannelId)
    requires SlotsConserved(s) && c < |s.sched.config|
    ensures |s.sched.queued[c]| <= s.sched.config[c].capacity
    ensures |s.free[c]| <= s.sched.config[c].capacity
  {
    var q, n := s.sched.queued[c], s.sched.config[c].capacity;
    forall k: Slot
      ensures Count(Slots(q), k) <= if k < n then 1 else 0
      ensures Count(s.free[c], k) <= if k < n then 1 else 0
    {
      SlotsCount(q, k);
      assert Holders(s, c, k) == if k < n then 1 else 0;
    }
    DistinctBelow(Slots(q), n);
    DistinctBelow(s.free[c], n);
  }

  /** The capacity assertions of Push, PopNext and Release never fail. */
  lemma CapacityAssertionsHold(config: seq<ChannelConfig>, workerCount: nat, s: System, e: Event)
    requires Reachable(config, workerCount, s)
    requires Enabled(s, e)
    ensures forall c :: 0 <= c < |config| ==> |s.sched.queued[c]| <= config[c].capacity && |s.free[c]| <= config[c].capacity
    ensures e.PushFilled? ==> e.channel < |config| && |s.sched.queued[e.channel]| < config[e.channel].capacity
    ensures e.ReleaseProcessed? || e.ReleaseDropped? ==> e.channel < |config| && |s.free[e.channel]| < config[e.channel].capacity
  {
    EventDefined(s, e);
    hide Coherent, MutuallyExclusive, PacketsConserved, WorkersCounted, SomeoneAwake, AcquiringOk;
    forall c | 0 <= c < |config|
      ensures |s.sched.queued[c]| <= config[c].capacity && |s.free[c]| <= config[c].capacity
    {
      WithinCapacity(s, c);
    }
    hide SlotsConserved;
    NextWithinCapacity(s, e);
  }

  lemma NextWithinCapacity(s: System, e: Event)
    requires Inv(s) && Enabled(s, e)
    requires e.PushFilled? || e.ReleaseProcessed? || e.ReleaseDropped? ==> e.channel < |s.sched.config| == |s.free| == |s.sched.queued|
    ensures e.PushFilled? ==> |s.sched.queued[e.channel]| < s.sched.config[e.channel].capacity
    ensures e.ReleaseProcessed? || e.ReleaseDropped? ==> |s.free[e.channel]| < s.sched.config[e.channel].capacity
  {
    hide MutuallyExclusive, PacketsConserved, WorkersCounted, SomeoneAwake, AcquiringOk, SlotsConserved, PushPacket;
    if e.PushFilled? {
      EventDefined(s, e);
      PushConserves(s, e.channel, e.packet);
      PushPacketCoherent(s.sched, e.channel, e.packet);
      var q := s.sched.queued[e.channel];
      var s' := PushStep(s, e.channel, e.packet);
      WithinCapacity(s', e.channel);
      assert |multiset(s'.sched.queued[e.channel])| == |multiset(q)| + 1;
    } else if e.ReleaseProcessed? {
      ReleaseConserves(s, e.channel, e.slot);
      WithinCapacity(ReleaseStep(s, e.channel, e.slot), e.channel);
    } else if e.ReleaseDropped? {
      ReleaseDropConserves(s, e.channel, e.slot);
      WithinCapacity(ReleaseDroppedStep(s, e.channel, e.slot), e.channel);
    }
  }

  /** A dropped packet is a minimal one of its channel, and only Acquire on an empty free stack
      asked for it. */
  lemma DroppedIsMinimal(s: System, c: ChannelId, p: Packet)
    requires Inv(s) && Enabled(s, DropOldest(c))
    requires c < |s.sched.config| && p in s.sched.queued[c]
    ensures exists d: Packet :: Apply(s, DropOldest(c)).dropped == s.dropped + multiset{(c, d)} && d in s.sched.queued[c] && d.timestamp <= p.timestamp
  {
    hide SlotsConserved, MutuallyExclusive, PacketsConserved, PopNext;
    PopNextCoherent(s.sched, c);
    FrontIsFirst(s.sched.queued[c], p);
    var d := s.sched.queued[c][0];
    assert Apply(s, DropOldest(c)).dropped == s.dropped + multiset{(c, d)};
  }

  // ---------- Stop and Start ----------

  /** Once all workers have joined, every state is enabled and the ready heap holds exactly the
      states with packets queued in a scheduled channel. */
  lemma StoppedKeepsWork(config: seq<ChannelConfig>, workerCount: nat, s: System, st: StateId)
    requires Reachable(config, workerCount, s)
    requires s.phase.Stopped?
    requires st in s.sched.queues
    ensures s.sched.queues[st].enabled
    ensures Count(s.sched.ready, st) ==
      if exists c :: 0 <= c < |config| && config[c].scheduled && config[c].state == st && s.sched.queued[c] != [] then 1 else 0
  {
    hide SlotsConserved, PacketsConserved, OrderedUnder, QueueOk;
    assert s.workers[Executing(st)] == 0 by { CountAtMostSize(s.workers, Executing(st)); }
    HeapNonEmptyIff(s.sched, st);
  }

  lemma HeapNonEmptyIff(s: Sched, st: StateId)
    requires Coherent(s) && st in s.queues
    ensures s.queues[st].heap != [] <==>
      exists c :: 0 <= c < |s.config| && s.config[c].scheduled && s.config[c].state == st && s.queued[c] != []
  {
    hide OrderedUnder, QueueOk, StatesListed;
    var h := s.queues[st].heap;
    if h != [] {
      assert h[0] in h;
      InHeap(s.config, NonEmpty(s.queued), st, h, h[0]);
      assert Count(h, h[0]) > 0;
    }
    if c :| 0 <= c < |s.config| && s.config[c].scheduled && s.config[c].state == st && s.queued[c] != [] {
      assert Count(h, c) == 1;
    }
  }

  lemma OtherThan<T>(m: multiset<T>, x: T)
    requires m[x] != |m|
    ensures exists y :: y in m && y != x
  {
    CountAtMostSize(m, x);
    var rest := m[x := 0];
    assert |rest| > 0;
    var y :| y in rest;
    assert y in m && y != x;
  }
}
