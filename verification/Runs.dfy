/** Whole runs: any number of producer, polling and worker threads, interleaved at every lock.

    Threads are anonymous.  `workers` counts the worker threads at each point of
    SchedulerImpl::RunTasks and `acquiring` the threads at each unlocked point of
    ChannelImpl::Acquire; `filling` and `processing` are the slots in the hands of threads.
    Packets and slots are only moved by the events below.
  */
module Runs {
  import opened Heaps
  import opened Scheduling
  import opened Channels
  import opened Workers
  import opened Refinement

  type Slot = nat

  datatype Worker =
    | AtTop                       // about to test keep_running_
    | Checked                     // about to take, or just woken: tests the wait condition
    | Blocked                     // waits on the condition variable
    | Executing(state: StateId)   // runs a callback for this state
    | Exited

  datatype Acquiring =
    | WantsDrop(channel: ChannelId)
    | HoldsDropped(channel: ChannelId, slot: Slot)
    | Retries(channel: ChannelId)

  /** Where Start and Stop are: keep_running_ is set only while running, and Stop clears it under
      the lock, notifies all, then joins the workers. */
  datatype Phase = Stopped | Running | FlagCleared | Joining

  datatype System = System(
    sched: Sched,
    free: seq<seq<Slot>>,
    filling: multiset<(ChannelId, Slot)>,
    processing: multiset<(ChannelId, Slot)>,
    acquiring: multiset<Acquiring>,
    workers: multiset<Worker>,
    workerCount: nat,
    phase: Phase,
    now: int,
    // history
    pushed: multiset<Entry>,
    retrieved: multiset<Entry>,
    dropped: multiset<Entry>)

  datatype Event =
    | Tick(time: int)
    // ChannelImpl::Acquire, between its locked regions
    | AcquireFirst(channel: ChannelId)
    | DropOldest(channel: ChannelId)
    | ReleaseDropped(channel: ChannelId, slot: Slot)
    | AcquireAgain(channel: ChannelId)
    // ChannelImpl::Push, PolledChannel::Poll, ChannelImpl::Release
    | PushFilled(channel: ChannelId, packet: Packet)
    | Poll(channel: ChannelId)
    | ReleaseProcessed(channel: ChannelId, slot: Slot)
    // SchedulerImpl::RunTasks
    | Check
    | Exit
    | Wait
    | WakeUp
    | GiveUp
    | TakeTask
    | FinishTask(state: StateId)
    // SchedulerImpl::Start, SchedulerImpl::Stop
    | StartWorkers
    | RequestStop
    | NotifyAll
    | JoinWorkers

  // ---------- initial states ----------

  function FreeStack(capacity: nat): (r: seq<Slot>) {
    seq(capacity, i requires 0 <= i < capacity => capacity - 1 - i)
  }

  /** Slot 0 is on top. */
  lemma FreeStackAt(capacity: nat, i: nat)
    requires i < capacity
    ensures |FreeStack(capacity)| == capacity && FreeStack(capacity)[|FreeStack(capacity)| - 1 - i] == i
  {
  }

  function StatesOf(config: seq<ChannelConfig>): set<StateId> {
    set c | 0 <= c < |config| :: config[c].state
  }

  function InitialSched(config: seq<ChannelConfig>): Sched {
    Sched(config, seq(|config|, _ => []), map st | st in StatesOf(config) :: ChannelHeap(true, []), [])
  }

  function Initial(config: seq<ChannelConfig>, workerCount: nat): System {
    System(InitialSched(config),
           seq(|config|, c requires 0 <= c < |config| => FreeStack(config[c].capacity)),
           multiset{}, multiset{}, multiset{}, multiset{}, workerCount, Stopped, 0,
           multiset{}, multiset{}, multiset{})
  }

  // ---------- invariants ----------

  function SlotCount(q: seq<Packet>, k: Slot): nat {
    if q == [] then 0 else (if q[0].slot == k then 1 else 0) + SlotCount(q[1..], k)
  }

  function InFree(free: seq<seq<Slot>>, c: ChannelId, k: Slot): nat {
    if c < |free| then Count(free[c], k) else 0
  }

  function InQueue(queued: seq<seq<Packet>>, c: ChannelId, k: Slot): nat {
    if c < |queued| then SlotCount(queued[c], k) else 0
  }

  function InHands(s: System, c: ChannelId, k: Slot): nat {
    s.filling[(c, k)] + s.processing[(c, k)] + s.acquiring[HoldsDropped(c, k)]
  }

  /** In how many places slot `k` of channel `c` is. */
  function Holders(s: System, c: ChannelId, k: Slot): nat {
    InFree(s.free, c, k) + InQueue(s.sched.queued, c, k) + InHands(s, c, k)
  }

  ghost predicate SlotsConserved(s: System) {
    && |s.free| == |s.sched.config| == |s.sched.queued|
    && forall c: ChannelId, k: Slot :: Holders(s, c, k) ==
         if c < |s.sched.config| && k < s.sched.config[c].capacity then 1 else 0
  }

  /** A state other than nullptr is disabled exactly while one worker executes a task of it. */
  ghost predicate MutuallyExclusive(s: System) {
    && (forall st: StateId :: st != STATELESS ==>
         s.workers[Executing(st)] == (if st in s.sched.queues && !s.sched.queues[st].enabled then 1 else 0))
    && (STATELESS in s.sched.queues ==> s.sched.queues[STATELESS].enabled)
  }

  ghost predicate WorkersCounted(s: System) {
    && s.workerCount > 0
    && |s.workers| == (if s.phase.Stopped? then 0 else s.workerCount)
    && (s.phase.Running? ==> s.workers[Exited] == 0)
    && (s.phase.Joining? ==> s.workers[Blocked] == 0)
  }

  /** Some worker is not blocked while there is something to take. */
  ghost predicate SomeoneAwake(s: System) {
    s.phase.Running? && s.sched.ready != [] ==> s.workers[Blocked] < |s.workers|
  }

  ghost predicate PacketsConserved(s: System) {
    s.pushed == s.retrieved + s.dropped + Bag(s.sched.queued)
  }

  ghost predicate AcquiringOk(s: System) {
    forall c: ChannelId :: WantsDrop(c) in s.acquiring || Retries(c) in s.acquiring ==> c < |s.sched.config|
  }

  ghost predicate Inv(s: System) {
    && Coherent(s.sched)
    && SlotsConserved(s)
    && AcquiringOk(s)
    && MutuallyExclusive(s)
    && WorkersCounted(s)
    && SomeoneAwake(s)
    && PacketsConserved(s)
    && s.now < MAX_TIME
  }

  // ---------- steps ----------

  /** What a thread must own, or where it must be, for the event to be its next action. */
  ghost predicate Enabled(s: System, e: Event) {
    match e
    case Tick(t) => s.now <= t < MAX_TIME
    case AcquireFirst(c) => c < |s.sched.config|
    case DropOldest(c) => WantsDrop(c) in s.acquiring
    case ReleaseDropped(c, k) => HoldsDropped(c, k) in s.acquiring
    case AcquireAgain(c) => Retries(c) in s.acquiring
    case PushFilled(c, p) => (c, p.slot) in s.filling && p.timestamp <= s.now
    case Poll(c) => c < |s.sched.config| && !s.sched.config[c].scheduled
    case ReleaseProcessed(c, k) => (c, k) in s.processing
    case Check => AtTop in s.workers && s.phase.Running?
    case Exit => AtTop in s.workers && !s.phase.Running?
    case Wait => Checked in s.workers && s.phase.Running? && s.sched.ready == []
    case WakeUp => Blocked in s.workers
    case GiveUp => Checked in s.workers && !s.phase.Running? && s.sched.ready == []
    case TakeTask => Checked in s.workers && s.sched.ready != []
    case FinishTask(st) => Executing(st) in s.workers
    case StartWorkers => s.phase.Stopped?
    case RequestStop => s.phase.Running?
    case NotifyAll => s.phase.FlagCleared?
    case JoinWorkers => s.phase.Joining? && s.workers[Exited] == |s.workers|
  }

  function Move(workers: multiset<Worker>, from: Worker, to: Worker): multiset<Worker> {
    workers - multiset{from} + multiset{to}
  }

  /** condition_variable::notify_one. */
  function Notify(workers: multiset<Worker>, notify: bool): multiset<Worker> {
    if notify && Blocked in workers then Move(workers, Blocked, Checked) else workers
  }

  /** free_packets_.pop_back(): the slot is now being filled. */
  function TakeFree(s: System, c: ChannelId): System
    requires c < |s.free| && s.free[c] != []
  {
    var n := |s.free[c]| - 1;
    s.(free := s.free[c := s.free[c][..n]], filling := s.filling + multiset{(c, s.free[c][n])})
  }

  function AddFree(s: System, c: ChannelId, k: Slot): System
    requires c < |s.free|
  {
    s.(free := s.free[c := s.free[c] + [k]])
  }

  lemma HolderIsKnown(s: System, c: ChannelId, k: Slot)
    requires SlotsConserved(s) && Holders(s, c, k) > 0
    ensures c < |s.sched.config| && k < s.sched.config[c].capacity
  {
  }

  function Drop(s: System, c: ChannelId): System
    requires Coherent(s.sched) && c < |s.sched.config| && s.sched.queued[c] != []
  {
    var (sched, p) := PopNext(s.sched, c);
    s.(sched := sched,
       acquiring := s.acquiring - multiset{WantsDrop(c)} + multiset{HoldsDropped(c, p.slot)},
       dropped := s.dropped + multiset{(c, p)})
  }

  function PushStep(s: System, c: ChannelId, p: Packet): System
    requires Coherent(s.sched) && c < |s.sched.config| && p.timestamp < MAX_TIME
  {
    var (sched, notify) := PushPacket(s.sched, c, p);
    s.(sched := sched,
       filling := s.filling - multiset{(c, p.slot)},
       workers := Notify(s.workers, notify),
       pushed := s.pushed + multiset{(c, p)})
  }

  function PollNext(s: System, c: ChannelId): System
    requires Coherent(s.sched) && c < |s.sched.config| && s.sched.queued[c] != []
  {
    var (sched, p) := PopNext(s.sched, c);
    s.(sched := sched,
       processing := s.processing + multiset{(c, p.slot)},
       retrieved := s.retrieved + multiset{(c, p)})
  }

  function TakeNext(s: System): System
    requires Coherent(s.sched) && s.sched.ready != []
  {
    var (sched, t) := Take(s.sched);
    s.(sched := sched,
       workers := Move(s.workers, Checked, Executing(t.state)),
       processing := s.processing + multiset{(t.channel, t.packet.slot)},
       retrieved := s.retrieved + multiset{(t.channel, t.packet)})
  }

  function AcquireFirstStep(s: System, c: ChannelId): System
    requires c < |s.free|
  {
    if s.free[c] != [] then TakeFree(s, c) else s.(acquiring := s.acquiring + multiset{WantsDrop(c)})
  }

  function DropOldestStep(s: System, c: ChannelId): System
    requires Coherent(s.sched) && c < |s.sched.config|
  {
    if s.sched.queued[c] != [] then Drop(s, c) else s.(acquiring := s.acquiring - multiset{WantsDrop(c)})
  }

  function ReleaseDroppedStep(s: System, c: ChannelId, k: Slot): System
    requires c < |s.free|
  {
    AddFree(s, c, k).(acquiring := s.acquiring - multiset{HoldsDropped(c, k)} + multiset{Retries(c)})
  }

  function AcquireAgainStep(s: System, c: ChannelId): System
    requires c < |s.free|
  {
    var s' := s.(acquiring := s.acquiring - multiset{Retries(c)});
    if s.free[c] != [] then TakeFree(s', c) else s'
  }

  function PollStep(s: System, c: ChannelId): System
    requires Coherent(s.sched) && c < |s.sched.config|
  {
    if s.sched.queued[c] != [] then PollNext(s, c) else s
  }

  function ReleaseStep(s: System, c: ChannelId, k: Slot): System
    requires c < |s.free|
  {
    AddFree(s, c, k).(processing := s.processing - multiset{(c, k)})
  }

  function FinishStep(s: System, st: StateId): System
    requires Coherent(s.sched)
    requires st != STATELESS ==> st in s.sched.queues && !s.sched.queues[st].enabled
  {
    var s' := s.(workers := Move(s.workers, Executing(st), AtTop));
    if st != STATELESS then s'.(sched := Finish(s.sched, st)) else s'
  }

  /** What the event's preconditions inside the code rest on. */
  lemma EventDefined(s: System, e: Event)
    requires Inv(s) && Enabled(s, e)
    ensures e.AcquireFirst? || e.DropOldest? || e.ReleaseDropped? || e.AcquireAgain? || e.PushFilled? || e.Poll? || e.ReleaseProcessed? ==>
      e.channel < |s.free| == |s.sched.config|
    ensures e.PushFilled? ==> e.packet.timestamp < MAX_TIME
    ensures e.FinishTask? && e.state != STATELESS ==> e.state in s.sched.queues && !s.sched.queues[e.state].enabled
  {
    hide Coherent;
    match e
    case ReleaseDropped(c, k) => HolderIsKnown(s, c, k);
    case PushFilled(c, p) => HolderIsKnown(s, c, p.slot);
    case ReleaseProcessed(c, k) => HolderIsKnown(s, c, k);
    case _ =>
  }

  function Apply(s: System, e: Event): System
    requires Inv(s) && Enabled(s, e)
  {
    EventDefined(s, e);
    match e
    case Tick(t) => s.(now := t)
    case AcquireFirst(c) => AcquireFirstStep(s, c)
    case DropOldest(c) => DropOldestStep(s, c)
    case ReleaseDropped(c, k) => ReleaseDroppedStep(s, c, k)
    case AcquireAgain(c) => AcquireAgainStep(s, c)
    case PushFilled(c, p) => PushStep(s, c, p)
    case Poll(c) => PollStep(s, c)
    case ReleaseProcessed(c, k) => ReleaseStep(s, c, k)
    case Check => s.(workers := Move(s.workers, AtTop, Checked))
    case Exit => s.(workers := Move(s.workers, AtTop, Exited))
    case Wait => s.(workers := Move(s.workers, Checked, Blocked))
    case WakeUp => s.(workers := Move(s.workers, Blocked, Checked))
    case GiveUp => s.(workers := Move(s.workers, Checked, AtTop))
    case TakeTask => TakeNext(s)
    case FinishTask(st) => FinishStep(s, st)
    case StartWorkers => s.(phase := Running, workers := multiset{}[AtTop := s.workerCount])
    case RequestStop => s.(phase := FlagCleared)
    case NotifyAll => s.(phase := Joining, workers := s.workers[Blocked := 0][Checked := s.workers[Checked] + s.workers[Blocked]])
    case JoinWorkers => s.(phase := Stopped, workers := multiset{})
  }

  // ---------- slots ----------

  lemma {:induction false} SlotCountConcat(a: seq<Packet>, b: seq<Packet>, k: Slot)
    ensures SlotCount(a + b, k) == SlotCount(a, k) + SlotCount(b, k)
  {
    if a == [] {
      assert a + b == b;
    } else {
      SlotCountConcat(a[1..], b, k);
      assert (a + b)[1..] == a[1..] + b;
    }
  }

  lemma WithoutOne<T>(q: seq<T>, i: nat)
    requires i < |q|
    ensures multiset(q[..i] + q[i + 1..]) == multiset(q) - multiset{q[i]}
  {
    assert q == q[..i] + [q[i]] + q[i + 1..];
  }

  lemma SlotCountWithout(q: seq<Packet>, i: nat, k: Slot)
    requires i < |q|
    ensures SlotCount(q, k) == SlotCount(q[..i] + q[i + 1..], k) + if q[i].slot == k then 1 else 0
  {
    assert q == q[..i] + ([q[i]] + q[i + 1..]);
    SlotCountConcat(q[..i], [q[i]] + q[i + 1..], k);
    SlotCountConcat(q[..i], q[i + 1..], k);
    assert ([q[i]] + q[i + 1..])[1..] == q[i + 1..];
  }

  lemma {:induction false} SlotCountSame(a: seq<Packet>, b: seq<Packet>, k: Slot)
    requires multiset(a) == multiset(b)
    ensures SlotCount(a, k) == SlotCount(b, k)
  {
    if a == [] {
      assert |multiset(b)| == 0;
    } else {
      var i := MatchFirst(a, b);
      SlotCountSame(a[1..], b[..i] + b[i + 1..], k);
      SlotCountWithout(b, i, k);
    }
  }

  lemma MatchFirst<T>(a: seq<T>, b: seq<T>) returns (i: nat)
    requires multiset(a) == multiset(b) && a != []
    ensures i < |b| && b[i] == a[0]
    ensures multiset(a[1..]) == multiset(b[..i] + b[i + 1..])
  {
    SameElements(a, b);
    assert a[0] in a;
    i := IndexOf(b, a[0]);
    WithoutOne(b, i);
    assert a == [a[0]] + a[1..];
  }

  lemma SlotCountGains(q: seq<Packet>, q': seq<Packet>, p: Packet, k: Slot)
    requires multiset(q') == multiset(q) + multiset{p}
    ensures SlotCount(q', k) == SlotCount(q, k) + if p.slot == k then 1 else 0
  {
    SlotCountSame(q', [p] + q, k);
    SlotCountConcat([p], q, k);
  }

  lemma SlotCountLoses(q: seq<Packet>, q': seq<Packet>, p: Packet, k: Slot)
    requires p in q && multiset(q') == multiset(q) - multiset{p}
    ensures SlotCount(q, k) == SlotCount(q', k) + if p.slot == k then 1 else 0
  {
    SlotCountGains(q', q, p, k);
  }

  /** The slot of `p` leaves the queue of `c`, or, read backwards, enters it. */
  lemma QueueLoses(queued: seq<seq<Packet>>, queued': seq<seq<Packet>>, c: ChannelId, p: Packet, d: ChannelId, k: Slot)
    requires c < |queued| == |queued'| && queued' == queued[c := queued'[c]]
    requires p in queued[c] && multiset(queued'[c]) == multiset(queued[c]) - multiset{p}
    ensures InQueue(queued, d, k) == InQueue(queued', d, k) + if d == c && k == p.slot then 1 else 0
  {
    if d == c {
      SlotCountLoses(queued[c], queued'[c], p, k);
    }
  }

  lemma FreeGains(free: seq<seq<Slot>>, c: ChannelId, j: Slot, d: ChannelId, k: Slot)
    requires c < |free|
    ensures InFree(free[c := free[c] + [j]], d, k) == InFree(free, d, k) + if d == c && k == j then 1 else 0
  {
  }

  /** The moves conserve the slots if every count of holders stays the same. */
  lemma SameHolders(s: System, s': System)
    requires SlotsConserved(s)
    requires s'.sched.config == s.sched.config && |s'.sched.queued| == |s.sched.queued| && |s'.free| == |s.free|
    requires forall d: ChannelId, k: Slot :: Holders(s', d, k) == Holders(s, d, k)
    ensures SlotsConserved(s')
  {
    hide Holders;
  }

  lemma TakeFreeConserves(s: System, c: ChannelId)
    requires SlotsConserved(s) && c < |s.free| && s.free[c] != []
    ensures SlotsConserved(TakeFree(s, c))
  {
    hide SlotsConserved, InQueue, Count;
    var f := s.free[c];
    var n := |f| - 1;
    var s' := TakeFree(s, c);
    assert f[..n] + [f[n]] == f;
    assert s.free == s'.free[c := s'.free[c] + [f[n]]];
    forall d: ChannelId, k: Slot ensures Holders(s', d, k) == Holders(s, d, k) {
      FreeGains(s'.free, c, f[n], d, k);
    }
    SameHolders(s, s');
  }

  lemma ReleaseConserves(s: System, c: ChannelId, j: Slot)
    requires SlotsConserved(s) && (c, j) in s.processing
    ensures c < |s.free| && SlotsConserved(ReleaseStep(s, c, j))
  {
    HolderIsKnown(s, c, j);
    hide SlotsConserved, InQueue, InFree;
    var s' := ReleaseStep(s, c, j);
    forall d: ChannelId, k: Slot ensures Holders(s', d, k) == Holders(s, d, k) {
      FreeGains(s.free, c, j, d, k);
    }
    SameHolders(s, s');
  }

  lemma ReleaseDropConserves(s: System, c: ChannelId, j: Slot)
    requires SlotsConserved(s) && HoldsDropped(c, j) in s.acquiring
    ensures c < |s.free| && SlotsConserved(ReleaseDroppedStep(s, c, j))
  {
    HolderIsKnown(s, c, j);
    hide SlotsConserved, InQueue, InFree;
    var s' := ReleaseDroppedStep(s, c, j);
    forall d: ChannelId, k: Slot ensures Holders(s', d, k) == Holders(s, d, k) {
      FreeGains(s.free, c, j, d, k);
    }
    SameHolders(s, s');
  }

  lemma DropConserves(s: System, c: ChannelId)
    requires Coherent(s.sched) && SlotsConserved(s) && c < |s.sched.config| && s.sched.queued[c] != []
    ensures SlotsConserved(Drop(s, c))
  {
    hide QueueOk, OrderedUnder, StatesListed, ChannelsListed, PopNext, SlotsConserved, InQueue;
    PopNextCoherent(s.sched, c);
    var q := s.sched.queued[c];
    var s' := Drop(s, c);
    forall d: ChannelId, k: Slot ensures Holders(s', d, k) == Holders(s, d, k) {
      QueueLoses(s.sched.queued, s'.sched.queued, c, q[0], d, k);
    }
    SameHolders(s, s');
  }

  lemma PollConserves(s: System, c: ChannelId)
    requires Coherent(s.sched) && SlotsConserved(s) && c < |s.sched.config| && s.sched.queued[c] != []
    ensures SlotsConserved(PollNext(s, c))
  {
    hide QueueOk, OrderedUnder, StatesListed, ChannelsListed, PopNext, SlotsConserved, InQueue;
    PopNextCoherent(s.sched, c);
    var q := s.sched.queued[c];
    var s' := PollNext(s, c);
    forall d: ChannelId, k: Slot ensures Holders(s', d, k) == Holders(s, d, k) {
      QueueLoses(s.sched.queued, s'.sched.queued, c, q[0], d, k);
    }
    SameHolders(s, s');
  }

  lemma TakeConserves(s: System)
    requires Coherent(s.sched) && SlotsConserved(s) && s.sched.ready != []
    ensures SlotsConserved(TakeNext(s))
  {
    hide QueueOk, OrderedUnder, StatesListed, ChannelsListed, Take, SlotsConserved, InQueue;
    TakeEffect(s.sched);
    var t := Take(s.sched).1;
    var s' := TakeNext(s);
    forall d: ChannelId, k: Slot ensures Holders(s', d, k) == Holders(s, d, k) {
      QueueLoses(s.sched.queued, s'.sched.queued, t.channel, t.packet, d, k);
    }
    SameHolders(s, s');
  }

  lemma PushConserves(s: System, c: ChannelId, p: Packet)
    requires Coherent(s.sched) && SlotsConserved(s) && c < |s.sched.config| && p.timestamp < MAX_TIME
    requires (c, p.slot) in s.filling
    ensures SlotsConserved(PushStep(s, c, p))
  {
    hide QueueOk, OrderedUnder, StatesListed, ChannelsListed, PushPacket, SlotsConserved, InQueue;
    PushPacketCoherent(s.sched, c, p);
    var s' := PushStep(s, c, p);
    assert multiset(s.sched.queued[c]) == multiset(s'.sched.queued[c]) - multiset{p};
    assert p in multiset(s'.sched.queued[c]);
    forall d: ChannelId, k: Slot ensures Holders(s', d, k) == Holders(s, d, k) {
      QueueLoses(s'.sched.queued, s.sched.queued, c, p, d, k);
    }
    SameHolders(s, s');
  }

  // ---------- packets ----------

  lemma DropAccounts(s: System, c: ChannelId)
    requires Coherent(s.sched) && PacketsConserved(s) && c < |s.sched.config| && s.sched.queued[c] != []
    ensures PacketsConserved(Drop(s, c))
  {
    hide Coherent, Abs, PopNext, Bag;
    PopRefines(s.sched, c);
    AbsBag(s.sched);
    AbsBag(Drop(s, c).sched);
  }

  lemma PollAccounts(s: System, c: ChannelId)
    requires Coherent(s.sched) && PacketsConserved(s) && c < |s.sched.config| && s.sched.queued[c] != []
    ensures PacketsConserved(PollNext(s, c))
  {
    hide Abs, PopNext, Bag;
    PopRefines(s.sched, c);
    AbsBag(s.sched);
    AbsBag(PollNext(s, c).sched);
  }

  lemma TakeAccounts(s: System)
    requires Coherent(s.sched) && PacketsConserved(s) && s.sched.ready != []
    ensures PacketsConserved(TakeNext(s))
  {
    hide Abs, Take, Bag;
    TakeRefines(s.sched);
    AbsBag(s.sched);
    AbsBag(TakeNext(s).sched);
  }

  lemma PushAccounts(s: System, c: ChannelId, p: Packet)
    requires Coherent(s.sched) && PacketsConserved(s) && c < |s.sched.config| && p.timestamp < MAX_TIME
    ensures PacketsConserved(PushStep(s, c, p))
  {
    hide Abs, PushPacket, Bag;
    PushRefines(s.sched, c, p);
    AbsBag(s.sched);
    AbsBag(PushStep(s, c, p).sched);
  }

  lemma AbsBag(s: Sched)
    ensures Abs(s).bag == Bag(s.queued)
  {
  }

  // ---------- workers ----------

  lemma CountAtMostSize<T>(m: multiset<T>, x: T)
    ensures m[x] <= |m|
  {
    assert m == m[x := 0] + multiset{}[x := m[x]];
  }

  lemma AnotherOne<T>(m: multiset<T>, x: T, y: T)
    requires x in m && x != y
    ensures m[y] < |m|
  {
    var rest := m - multiset{x};
    assert m == rest + multiset{x};
    CountAtMostSize(rest, y);
  }

  lemma MoveCounts(w: multiset<Worker>, from: Worker, to: Worker)
    requires from in w && from != to
    ensures |Move(w, from, to)| == |w|
    ensures forall x: Worker :: Move(w, from, to)[x] == if x == from then w[x] - 1 else if x == to then w[x] + 1 else w[x]
  {
    assert w == w - multiset{from} + multiset{from};
    var w' := Move(w, from, to);
    forall x: Worker ensures w'[x] == if x == from then w[x] - 1 else if x == to then w[x] + 1 else w[x] {
    }
  }

  lemma NotifyCounts(w: multiset<Worker>, notify: bool)
    ensures |Notify(w, notify)| == |w|
    ensures forall x: Worker :: x != Blocked && x != Checked ==> Notify(w, notify)[x] == w[x]
    ensures Notify(w, notify)[Blocked] == if notify && w[Blocked] > 0 then w[Blocked] - 1 else w[Blocked]
    ensures Notify(w, notify)[Checked] == if notify && w[Blocked] > 0 then w[Checked] + 1 else w[Checked]
  {
    if notify && Blocked in w {
      MoveCounts(w, Blocked, Checked);
    }
  }

  /** The channel operations enable and disable nothing, and move no worker into a task. */
  lemma SameExclusion(s: System, s': System)
    requires MutuallyExclusive(s)
    requires s'.sched.queues.Keys == s.sched.queues.Keys
    requires forall st :: st in s.sched.queues ==> s'.sched.queues[st].enabled == s.sched.queues[st].enabled
    requires forall st: StateId :: s'.workers[Executing(st)] == s.workers[Executing(st)]
    ensures MutuallyExclusive(s')
  {
    forall st: StateId ensures st in s'.sched.queues <==> st in s.sched.queues {
      assert st in s'.sched.queues <==> st in s'.sched.queues.Keys;
    }
  }

  /** One more worker executes for `st`, which only now is disabled. */
  lemma OneMoreExcludes(s: System, s': System, st: StateId)
    requires MutuallyExclusive(s) && s'.sched.queues.Keys == s.sched.queues.Keys
    requires st in s.sched.queues && s.sched.queues[st].enabled
    requires forall x :: x in s.sched.queues ==>
      s'.sched.queues[x].enabled == (s.sched.queues[x].enabled && (x != st || st == STATELESS))
    requires forall x: StateId :: s'.workers[Executing(x)] == s.workers[Executing(x)] + if x == st then 1 else 0
    ensures MutuallyExclusive(s')
  {
    forall x: StateId ensures x in s'.sched.queues <==> x in s.sched.queues {
      assert x in s'.sched.queues <==> x in s'.sched.queues.Keys;
    }
  }

  lemma TakeExcludes(s: System)
    requires Coherent(s.sched) && MutuallyExclusive(s) && s.sched.ready != [] && Checked in s.workers
    ensures MutuallyExclusive(TakeNext(s))
  {
    hide MutuallyExclusive, QueuesOk, OrderedUnder, StatesListed, ChannelsListed, Take, Move;
    TakeEffect(s.sched);
    var t := Take(s.sched).1;
    MoveCounts(s.workers, Checked, Executing(t.state));
    OneMoreExcludes(s, TakeNext(s), t.state);
  }

  lemma FinishExcludes(s: System, st: StateId)
    requires Coherent(s.sched) && MutuallyExclusive(s) && Executing(st) in s.workers
    ensures st != STATELESS ==> st in s.sched.queues && !s.sched.queues[st].enabled
    ensures MutuallyExclusive(FinishStep(s, st))
  {
    hide QueueOk, OrderedUnder, StatesListed, ChannelsListed, Finish;
    MoveCounts(s.workers, Executing(st), AtTop);
    if st != STATELESS {
      FinishEffect(s.sched, st);
      var sched := Finish(s.sched, st);
      hide Move, Coherent;
      forall x: StateId ensures x in sched.queues <==> x in s.sched.queues {
        assert x in sched.queues <==> x in sched.queues.Keys;
      }
    }
  }

  // ---------- no lost wake-up ----------

  lemma EligibleReadies(s: Sched, c: ChannelId, p: Packet)
    requires Coherent(s)
    ensures Eligible(s, c, p) ==> s.ready != []
  {
    if Eligible(s, c, p) {
      EarliestFirst(s, c, p);
    }
  }

  /** With no ready state, a packet of an enabled state is earlier than all there is. */
  lemma IdleMeansBeforeAll(s: Sched, st: StateId, t: int)
    requires Coherent(s) && st in s.queues && s.queues[st].enabled
    ensures s.ready != [] || BeforeAll(s, st, t)
  {
    hide QueuesOk, OrderedUnder, StatesListed, ChannelsListed;
    forall c, p | 0 <= c < |s.config| && s.config[c].scheduled && s.config[c].state == st && p in s.queued[c]
      ensures s.ready != []
    {
      EligibleReadies(s, c, p);
    }
  }

  /** A push that makes the first state ready notifies. */
  lemma FirstReadyNotifies(s: Sched, c: ChannelId, p: Packet)
    requires Coherent(s) && c < |s.config| && p.timestamp < MAX_TIME
    requires PushPacket(s, c, p).0.ready != []
    ensures s.ready != [] || PushPacket(s, c, p).1
  {
    hide QueueOk, OrderedUnder, StatesListed, ChannelsListed, PushPacket;
    PushPacketCoherent(s, c, p);
    var s' := PushPacket(s, c, p).0;
    ReadyIffEligible(s');
    var d: ChannelId, r: Packet :| Eligible(s', d, r);
    EligibleReadies(s, d, r);
    assert r in multiset(s'.queued[d]);
    if !Eligible(s, d, r) {
      assert d == c;
      IdleMeansBeforeAll(s, s.config[c].state, p.timestamp);
      hide BeforeAll;
      PushNotifiesIff(s, c, p);
    }
  }

  lemma StillThere<T>(q: seq<T>, q': seq<T>, p: T, r: T)
    requires multiset(q') == multiset(q) - multiset{p}
    ensures r in q' ==> r in q
  {
    assert r in q' ==> r in multiset(q');
    assert r in multiset(q) ==> r in q;
  }

  /** Removing a packet makes no state ready. */
  lemma PopReadiesNothing(s: Sched, c: ChannelId)
    requires Coherent(s) && c < |s.config| && s.queued[c] != []
    requires PopNext(s, c).0.ready != []
    ensures s.ready != []
  {
    hide QueueOk, OrderedUnder, StatesListed, ChannelsListed, PopNext;
    PopNextCoherent(s, c);
    var s' := PopNext(s, c).0;
    ReadyIffEligible(s');
    var d: ChannelId, r: Packet :| Eligible(s', d, r);
    StillThere(s.queued[c], Dequeue(s.queued[c]), s.queued[c][0], r);
    assert Eligible(s, d, r);
    EarliestFirst(s, d, r);
  }

  // ---------- every event keeps the invariant ----------

  ghost predicate WorkersOk(s: System) {
    MutuallyExclusive(s) && WorkersCounted(s) && SomeoneAwake(s)
  }

  lemma SomeoneElse(s: System, w: Worker)
    requires w in s.workers && w != Blocked
    ensures SomeoneAwake(s)
  {
    AnotherOne(s.workers, w, Blocked);
  }

  lemma SameAcquiring(s: System, s': System)
    requires AcquiringOk(s) && |s'.sched.config| == |s.sched.config|
    requires forall a :: a in s'.acquiring && !a.HoldsDropped? ==> a in s.acquiring || a.channel < |s.sched.config|
    ensures AcquiringOk(s')
  {
  }

  lemma PushWakes(s: System, c: ChannelId, p: Packet)
    requires Coherent(s.sched) && WorkersCounted(s) && SomeoneAwake(s) && c < |s.sched.config| && p.timestamp < MAX_TIME
    ensures WorkersCounted(PushStep(s, c, p)) && SomeoneAwake(PushStep(s, c, p))
  {
    hide Coherent, Notify, PushPacket;
    var (sched, notify) := PushPacket(s.sched, c, p);
    NotifyCounts(s.workers, notify);
    CountAtMostSize(s.workers, Blocked);
    if sched.ready != [] {
      FirstReadyNotifies(s.sched, c, p);
    }
  }

  lemma PushWorkers(s: System, c: ChannelId, p: Packet)
    requires Coherent(s.sched) && WorkersOk(s) && c < |s.sched.config| && p.timestamp < MAX_TIME
    ensures WorkersOk(PushStep(s, c, p))
  {
    hide Coherent, Notify, PushPacket, WorkersCounted, SomeoneAwake, MutuallyExclusive;
    PushPacketCoherent(s.sched, c, p);
    NotifyCounts(s.workers, PushPacket(s.sched, c, p).1);
    PushWakes(s, c, p);
    SameExclusion(s, PushStep(s, c, p));
  }

  lemma PushKeeps(s: System, c: ChannelId, p: Packet)
    requires Inv(s) && Enabled(s, PushFilled(c, p))
    ensures c < |s.sched.config| && p.timestamp < MAX_TIME && Inv(PushStep(s, c, p))
  {
    EventDefined(s, PushFilled(c, p));
    hide Coherent, SlotsConserved, PacketsConserved, MutuallyExclusive, WorkersCounted, SomeoneAwake, AcquiringOk, PushPacket;
    PushConserves(s, c, p);
    PushAccounts(s, c, p);
    PushPacketCoherent(s.sched, c, p);
    PushWorkers(s, c, p);
    SameAcquiring(s, PushStep(s, c, p));
  }

  /** A removal by a producer or a polling thread. */
  lemma PopWorkers(s: System, s': System, c: ChannelId)
    requires Coherent(s.sched) && WorkersOk(s) && c < |s.sched.config| && s.sched.queued[c] != []
    requires s'.sched == PopNext(s.sched, c).0 && s'.workers == s.workers && s'.workerCount == s.workerCount
    requires s'.phase == s.phase
    ensures WorkersOk(s')
  {
    hide Coherent, PopNext;
    PopNextCoherent(s.sched, c);
    if s'.sched.ready != [] {
      PopReadiesNothing(s.sched, c);
    }
    SameExclusion(s, s');
  }

  lemma DropKeeps(s: System, c: ChannelId)
    requires Inv(s) && Enabled(s, DropOldest(c))
    ensures c < |s.sched.config| && Inv(DropOldestStep(s, c))
  {
    EventDefined(s, DropOldest(c));
    hide Coherent, SlotsConserved, PacketsConserved, MutuallyExclusive, WorkersCounted, SomeoneAwake, AcquiringOk, PopNext;
    var s' := DropOldestStep(s, c);
    if s.sched.queued[c] != [] {
      DropConserves(s, c);
      DropAccounts(s, c);
      PopNextCoherent(s.sched, c);
      PopWorkers(s, s', c);
      DropAcquiring(s, c);
    } else {
      OnlyAcquiring(s, s');
    }
  }

  lemma DropAcquiring(s: System, c: ChannelId)
    requires Coherent(s.sched) && AcquiringOk(s) && c < |s.sched.config| && s.sched.queued[c] != []
    ensures AcquiringOk(Drop(s, c))
  {
    PopNextCoherent(s.sched, c);
    hide Coherent, PopNext;
    SameAcquiring(s, Drop(s, c));
  }

  /** Only the threads inside Acquire have moved. */
  lemma OnlyAcquiring(s: System, s': System)
    requires Inv(s)
    requires s' == s.(acquiring := s'.acquiring)
    requires forall c, k :: s'.acquiring[HoldsDropped(c, k)] == s.acquiring[HoldsDropped(c, k)]
    requires forall a :: a in s'.acquiring && !a.HoldsDropped? ==> a in s.acquiring || a.channel < |s.sched.config|
    ensures Inv(s')
  {
    assert SlotsConserved(s') by {
      hide Coherent;
      SameHolders(s, s');
    }
    hide Coherent, SlotsConserved;
    SameExclusion(s, s');
    SameAcquiring(s, s');
  }

  lemma PollKeeps(s: System, c: ChannelId)
    requires Inv(s) && c < |s.sched.config|
    ensures Inv(PollStep(s, c))
  {
    hide SlotsConserved, PacketsConserved, MutuallyExclusive, WorkersCounted, SomeoneAwake, AcquiringOk, PopNext;
    if s.sched.queued[c] != [] {
      PollConserves(s, c);
      PollAccounts(s, c);
      PopNextCoherent(s.sched, c);
      PopWorkers(s, PollNext(s, c), c);
      SameAcquiring(s, PollNext(s, c));
      hide Coherent;
    }
  }

  lemma TakeWorkers(s: System)
    requires Coherent(s.sched) && WorkersOk(s) && s.sched.ready != [] && Checked in s.workers
    ensures WorkersOk(TakeNext(s))
  {
    TakeExcludes(s);
    var st := Take(s.sched).1.state;
    MoveCounts(s.workers, Checked, Executing(st));
    hide Coherent, MutuallyExclusive, Take, Move, SomeoneAwake;
    SomeoneElse(TakeNext(s), Executing(st));
  }

  lemma TakeKeeps(s: System)
    requires Inv(s) && s.sched.ready != [] && Checked in s.workers
    ensures Inv(TakeNext(s))
  {
    hide Coherent, SlotsConserved, PacketsConserved, MutuallyExclusive, WorkersCounted, SomeoneAwake, AcquiringOk, Take;
    TakeConserves(s);
    TakeAccounts(s);
    TakeWorkers(s);
    TakeEffect(s.sched);
    SameAcquiring(s, TakeNext(s));
  }

  lemma FinishWorkers(s: System, st: StateId)
    requires Coherent(s.sched) && WorkersOk(s) && Executing(st) in s.workers
    ensures st != STATELESS ==> st in s.sched.queues && !s.sched.queues[st].enabled
    ensures WorkersOk(FinishStep(s, st))
  {
    FinishExcludes(s, st);
    MoveCounts(s.workers, Executing(st), AtTop);
    hide Coherent, MutuallyExclusive, Finish, Move, SomeoneAwake;
    SomeoneElse(FinishStep(s, st), AtTop);
  }

  lemma FinishKeeps(s: System, st: StateId)
    requires Inv(s) && Enabled(s, FinishTask(st))
    ensures st != STATELESS ==> st in s.sched.queues && !s.sched.queues[st].enabled
    ensures Inv(FinishStep(s, st))
  {
    hide SlotsConserved, MutuallyExclusive, WorkersCounted, SomeoneAwake, AcquiringOk, Finish, Coherent, PacketsConserved, Move;
    FinishWorkers(s, st);
    var s' := FinishStep(s, st);
    if st != STATELESS {
      FinishEffect(s.sched, st);
    }
    OnlyWorkers(s, s');
  }

  /** No slot, packet or acquiring thread has moved. */
  lemma OnlyWorkers(s: System, s': System)
    requires SlotsConserved(s) && PacketsConserved(s) && AcquiringOk(s)
    requires s'.sched.config == s.sched.config && s'.sched.queued == s.sched.queued && s'.free == s.free
    requires s'.filling == s.filling && s'.processing == s.processing && s'.acquiring == s.acquiring
    requires s'.pushed == s.pushed && s'.retrieved == s.retrieved && s'.dropped == s.dropped
    ensures SlotsConserved(s') && PacketsConserved(s') && AcquiringOk(s')
  {
    SameHolders(s, s');
  }

  /** A worker moves without touching the scheduler. */
  lemma MoveKeeps(s: System, from: Worker, to: Worker)
    requires Inv(s) && from in s.workers && from != to
    requires !from.Executing? && !to.Executing?
    requires to == Exited ==> !s.phase.Running?
    requires to == Blocked ==> s.sched.ready == [] && s.phase.Running?
    ensures Inv(s.(workers := Move(s.workers, from, to)))
  {
    hide Coherent, SlotsConserved, PacketsConserved, AcquiringOk, MutuallyExclusive, Move;
    var s' := s.(workers := Move(s.workers, from, to));
    OnlyWorkers(s, s');
    MoveCounts(s.workers, from, to);
    SameExclusion(s, s');
    if to != Blocked {
      SomeoneElse(s', to);
    }
  }

  /** A slot has moved between a free stack and the hands of a thread. */
  lemma OnlySlots(s: System, s': System)
    requires Inv(s)
    requires s' == s.(free := s'.free, filling := s'.filling, processing := s'.processing, acquiring := s'.acquiring)
    requires SlotsConserved(s')
    requires forall a :: a in s'.acquiring && !a.HoldsDropped? ==> a in s.acquiring || a.channel < |s.sched.config|
    ensures Inv(s')
  {
    hide Coherent, SlotsConserved, AcquiringOk;
    SameExclusion(s, s');
    SameAcquiring(s, s');
  }

  lemma AcquireFirstKeeps(s: System, c: ChannelId)
    requires Inv(s) && c < |s.free|
    ensures Inv(AcquireFirstStep(s, c))
  {
    var s' := AcquireFirstStep(s, c);
    assert |s.free| == |s.sched.config|;
    hide Inv;
    if s.free[c] != [] {
      assert SlotsConserved(s) by { InvSlots(s); }
      TakeFreeConserves(s, c);
      hide SlotsConserved;
      OnlySlots(s, s');
    } else {
      OnlyAcquiring(s, s');
    }
  }

  lemma InvSlots(s: System)
    requires Inv(s)
    ensures SlotsConserved(s)
  {
  }

  lemma AcquireAgainKeeps(s: System, c: ChannelId)
    requires Inv(s) && Retries(c) in s.acquiring && c < |s.free|
    ensures Inv(AcquireAgainStep(s, c))
  {
    var s' := s.(acquiring := s.acquiring - multiset{Retries(c)});
    hide Inv, SlotsConserved;
    OnlyAcquiring(s, s');
    if s.free[c] != [] {
      InvSlots(s');
      TakeFreeConserves(s', c);
      OnlySlots(s', TakeFree(s', c));
    }
  }

  lemma ReleaseKeeps(s: System, c: ChannelId, k: Slot)
    requires Inv(s) && (c, k) in s.processing
    ensures c < |s.free| && Inv(ReleaseStep(s, c, k))
  {
    hide Inv, SlotsConserved;
    InvSlots(s);
    ReleaseConserves(s, c, k);
    OnlySlots(s, ReleaseStep(s, c, k));
  }

  lemma ReleaseDroppedKeeps(s: System, c: ChannelId, k: Slot)
    requires Inv(s) && HoldsDropped(c, k) in s.acquiring
    ensures c < |s.free| && Inv(ReleaseDroppedStep(s, c, k))
  {
    hide Inv;
    InvSlots(s);
    HolderIsKnown(s, c, k);
    ReleaseDropConserves(s, c, k);
    OnlySlots(s, ReleaseDroppedStep(s, c, k));
  }

  lemma StartKeeps(s: System)
    requires Inv(s) && s.phase.Stopped?
    ensures Inv(s.(phase := Running, workers := multiset{}[AtTop := s.workerCount]))
  {
    hide Coherent, SlotsConserved, PacketsConserved, AcquiringOk, MutuallyExclusive;
    var s' := s.(phase := Running, workers := multiset{}[AtTop := s.workerCount]);
    OnlyWorkers(s, s');
    assert |s.workers| == 0;
    assert s'.workers[Blocked] == 0 && |s'.workers| == s.workerCount;
    SameExclusion(s, s');
  }

  lemma NotifyAllKeeps(s: System)
    requires Inv(s) && s.phase.FlagCleared?
    ensures Inv(s.(phase := Joining, workers := s.workers[Blocked := 0][Checked := s.workers[Checked] + s.workers[Blocked]]))
  {
    hide Coherent, SlotsConserved, PacketsConserved, AcquiringOk, MutuallyExclusive;
    var s' := s.(phase := Joining, workers := s.workers[Blocked := 0][Checked := s.workers[Checked] + s.workers[Blocked]]);
    OnlyWorkers(s, s');
    AllNotified(s.workers);
    SameExclusion(s, s');
  }

  lemma AllNotified(w: multiset<Worker>)
    ensures |w[Blocked := 0][Checked := w[Checked] + w[Blocked]]| == |w|
  {
    var w' := w[Blocked := 0][Checked := w[Checked] + w[Blocked]];
    assert w == w[Blocked := 0][Checked := 0] + multiset{}[Checked := w[Checked]] + multiset{}[Blocked := w[Blocked]];
    assert w' == w[Blocked := 0][Checked := 0] + multiset{}[Checked := w[Checked] + w[Blocked]];
  }

  lemma OnlyOnes<T>(m: multiset<T>, x: T, y: T)
    requires m[x] == |m| && x != y
    ensures m[y] == 0
  {
    if y in m {
      AnotherOne(m, y, x);
    }
  }

  lemma JoinKeeps(s: System)
    requires Inv(s) && s.phase.Joining? && s.workers[Exited] == |s.workers|
    ensures Inv(s.(phase := Stopped, workers := multiset{}))
  {
    hide Coherent, SlotsConserved, PacketsConserved, AcquiringOk, MutuallyExclusive;
    var s' := s.(phase := Stopped, workers := multiset{});
    OnlyWorkers(s, s');
    forall st: StateId ensures s.workers[Executing(st)] == 0 {
      OnlyOnes(s.workers, Exited, Executing(st));
    }
    SameExclusion(s, s');
  }

  lemma QuietKeeps(s: System, s': System)
    requires Inv(s) && (s'.now == s.now || s'.now < MAX_TIME)
    requires s' == s.(now := s'.now, phase := s'.phase)
    requires s'.phase == s.phase || (s.phase.Running? && s'.phase.FlagCleared?)
    ensures Inv(s')
  {
    hide Coherent, SlotsConserved, PacketsConserved, AcquiringOk, MutuallyExclusive;
    OnlyWorkers(s, s');
    SameExclusion(s, s');
  }

  lemma ChannelStepKeeps(s: System, e: Event)
    requires Inv(s) && Enabled(s, e)
    requires e.AcquireFirst? || e.DropOldest? || e.ReleaseDropped? || e.AcquireAgain? || e.PushFilled? || e.Poll? || e.ReleaseProcessed?
    ensures Inv(Apply(s, e))
  {
    hide Inv;
    EventDefined(s, e);
    match e
    case AcquireFirst(c) => AcquireFirstKeeps(s, c);
    case DropOldest(c) => DropKeeps(s, c);
    case ReleaseDropped(c, k) => ReleaseDroppedKeeps(s, c, k);
    case AcquireAgain(c) => AcquireAgainKeeps(s, c);
    case PushFilled(c, p) => PushKeeps(s, c, p);
    case Poll(c) => PollKeeps(s, c);
    case ReleaseProcessed(c, k) => ReleaseKeeps(s, c, k);
  }

  lemma StepKeeps(s: System, e: Event)
    requires Inv(s) && Enabled(s, e)
    ensures Inv(Apply(s, e))
  {
    hide Inv;
    match e
    case Tick(t) => QuietKeeps(s, s.(now := t));
    case Check => MoveKeeps(s, AtTop, Checked);
    case Exit => MoveKeeps(s, AtTop, Exited);
    case Wait => MoveKeeps(s, Checked, Blocked);
    case WakeUp => MoveKeeps(s, Blocked, Checked);
    case GiveUp => MoveKeeps(s, Checked, AtTop);
    case TakeTask => TakeKeeps(s);
    case FinishTask(st) => FinishKeeps(s, st);
    case StartWorkers => StartKeeps(s);
    case RequestStop => QuietKeeps(s, s.(phase := FlagCleared));
    case NotifyAll => NotifyAllKeeps(s);
    case JoinWorkers => JoinKeeps(s);
    case _ => ChannelStepKeeps(s, e);
  }

  // ---------- runs ----------

  lemma {:induction false} FreeStackCounts(n: nat, k: Slot)
    ensures Count(FreeStack(n), k) == if k < n then 1 else 0
  {
    if n == 0 {
    } else {
      FreeStackCounts(n - 1, k);
      assert FreeStack(n) == [n - 1] + FreeStack(n - 1);
    }
  }

  lemma InitialCoherent(config: seq<ChannelConfig>)
    ensures Coherent(InitialSched(config))
  {
    var s := InitialSched(config);
    assert forall c :: 0 <= c < |config| ==> config[c].state in StatesOf(config);
    assert NonEmpty(s.queued) == {};
  }

  lemma {:induction false} NothingQueued(n: nat)
    ensures Bag(seq(n, _ => [])) == multiset{}
  {
    if n == 0 {
    } else {
      var q: seq<seq<Packet>> := seq(n, _ => []);
      assert q[..n - 1] == seq(n - 1, _ => []);
      NothingQueued(n - 1);
    }
  }

  lemma InitialSlots(config: seq<ChannelConfig>, workerCount: nat)
    ensures SlotsConserved(Initial(config, workerCount))
  {
    hide FreeStack, InitialSched;
    var s := Initial(config, workerCount);
    forall c: ChannelId, k: Slot
      ensures Holders(s, c, k) == if c < |config| && k < config[c].capacity then 1 else 0
    {
      InitialQueuesEmpty(config, c, k);
      if c < |config| {
        FreeStackCounts(config[c].capacity, k);
      }
    }
    InitialQueuesEmpty(config, 0, 0);
  }

  lemma InitialQueuesEmpty(config: seq<ChannelConfig>, c: ChannelId, k: Slot)
    ensures var s := InitialSched(config);
      s.config == config && |s.queued| == |config| && InQueue(s.queued, c, k) == 0
  {
  }

  lemma InitialInv(config: seq<ChannelConfig>, workerCount: nat)
    requires workerCount > 0
    ensures Inv(Initial(config, workerCount))
  {
    hide Coherent, SlotsConserved, FreeStack;
    InitialCoherent(config);
    NothingQueued(|config|);
    InitialSlots(config, workerCount);
  }

  /** `events` can happen one after the other. */
  ghost predicate IsRun(s: System, events: seq<Event>)
    requires Inv(s)
    decreases |events|
  {
    events != [] ==>
      && Enabled(s, events[0])
      && (StepKeeps(s, events[0]); IsRun(Apply(s, events[0]), events[1..]))
  }

  ghost function After(s: System, events: seq<Event>): (r: System)
    requires Inv(s) && IsRun(s, events)
    decreases |events|
  {
    if events == [] then s else
      StepKeeps(s, events[0]);
      After(Apply(s, events[0]), events[1..])
  }

  /** Every state of every run satisfies the invariant. */
  lemma {:induction false} RunKeeps(s: System, events: seq<Event>)
    requires Inv(s) && IsRun(s, events)
    ensures Inv(After(s, events))
    ensures After(s, events).sched.config == s.sched.config
    ensures After(s, events).workerCount == s.workerCount
    decreases |events|
  {
    hide Inv, Apply;
    if events == [] {
    } else {
      StepKeeps(s, events[0]);
      StepConfig(s, events[0]);
      RunKeeps(Apply(s, events[0]), events[1..]);
    }
  }

  ghost predicate SameShape(s: System, s': System) {
    && s'.sched.config == s.sched.config
    && s'.sched.queues.Keys == s.sched.queues.Keys
    && s'.workerCount == s.workerCount
  }

  lemma PopShape(s: System, c: ChannelId)
    requires Coherent(s.sched) && c < |s.sched.config|
    ensures SameShape(s, DropOldestStep(s, c)) && SameShape(s, PollStep(s, c))
  {
    if s.sched.queued[c] != [] {
      PopNextCoherent(s.sched, c);
    }
    hide Coherent, PopNext;
  }

  lemma PushShape(s: System, c: ChannelId, p: Packet)
    requires Coherent(s.sched) && c < |s.sched.config| && p.timestamp < MAX_TIME
    ensures SameShape(s, PushStep(s, c, p))
  {
    PushPacketCoherent(s.sched, c, p);
    hide Coherent, PushPacket;
  }

  lemma TakeShape(s: System)
    requires Coherent(s.sched) && s.sched.ready != []
    ensures SameShape(s, TakeNext(s))
  {
    hide Coherent, Take;
    TakeEffect(s.sched);
  }

  lemma FinishShape(s: System, st: StateId)
    requires Coherent(s.sched)
    requires st != STATELESS ==> st in s.sched.queues && !s.sched.queues[st].enabled
    ensures SameShape(s, FinishStep(s, st))
  {
    hide Coherent, Finish;
    if st != STATELESS {
      FinishEffect(s.sched, st);
    }
  }

  lemma WorkerShape(s: System, e: Event)
    requires Inv(s) && Enabled(s, e) && (e.TakeTask? || e.FinishTask?)
    ensures SameShape(s, Apply(s, e))
  {
    hide Coherent, TakeNext, FinishStep, SlotsConserved, MutuallyExclusive, AcquiringOk, WorkersCounted, SomeoneAwake, PacketsConserved;
    EventDefined(s, e);
    match e
    case TakeTask => TakeShape(s);
    case FinishTask(st) => FinishShape(s, st);
  }

  /** Only slots and acquiring threads differ. */
  ghost predicate OnlySlotsMoved(s: System, s': System) {
    s' == s.(free := s'.free, filling := s'.filling, processing := s'.processing, acquiring := s'.acquiring)
  }

  lemma SlotStepMoves(s: System, c: ChannelId, k: Slot)
    requires c < |s.free|
    ensures OnlySlotsMoved(s, AcquireFirstStep(s, c)) && OnlySlotsMoved(s, AcquireAgainStep(s, c))
    ensures OnlySlotsMoved(s, ReleaseDroppedStep(s, c, k)) && OnlySlotsMoved(s, ReleaseStep(s, c, k))
  {
  }

  lemma SlotEventMoves(s: System, e: Event)
    requires Inv(s) && Enabled(s, e)
    requires e.AcquireFirst? || e.ReleaseDropped? || e.AcquireAgain? || e.ReleaseProcessed?
    ensures OnlySlotsMoved(s, Apply(s, e))
  {
    EventDefined(s, e);
    hide Inv, Enabled, AcquireFirstStep, AcquireAgainStep, ReleaseDroppedStep, ReleaseStep, OnlySlotsMoved;
    SlotStepMoves(s, e.channel, if e.ReleaseDropped? || e.ReleaseProcessed? then e.slot else 0);
  }

  lemma QueueShape(s: System, e: Event)
    requires Inv(s) && Enabled(s, e)
    requires e.DropOldest? || e.Poll? || e.PushFilled?
    ensures SameShape(s, Apply(s, e))
  {
    EventDefined(s, e);
    hide SlotsConserved, MutuallyExclusive, AcquiringOk, WorkersCounted, SomeoneAwake, PacketsConserved, Coherent, Enabled;
    hide DropOldestStep, PollStep, PushStep, SameShape;
    match e
    case DropOldest(c) => PopShape(s, c);
    case Poll(c) => PopShape(s, c);
    case PushFilled(c, p) => PushShape(s, c, p);
  }

  lemma SlotsShape(s: System, s': System)
    requires OnlySlotsMoved(s, s')
    ensures SameShape(s, s')
  {
  }

  /** The remaining events change the clock, the flags or where workers stand. */
  lemma ControlShape(s: System, e: Event)
    requires Inv(s) && Enabled(s, e)
    requires e.Tick? || e.Check? || e.Exit? || e.Wait? || e.WakeUp? || e.GiveUp? || e.StartWorkers? || e.RequestStop? || e.NotifyAll? || e.JoinWorkers?
    ensures SameShape(s, Apply(s, e))
  {
    hide Inv, Enabled, Move;
  }

  /** No event changes the channels, the states or the number of workers. */
  lemma StepConfig(s: System, e: Event)
    requires Inv(s) && Enabled(s, e)
    ensures SameShape(s, Apply(s, e))
  {
    hide *;
    if e.TakeTask? || e.FinishTask? {
      WorkerShape(s, e);
    } else if e.DropOldest? || e.Poll? || e.PushFilled? {
      QueueShape(s, e);
    } else if e.AcquireFirst? || e.ReleaseDropped? || e.AcquireAgain? || e.ReleaseProcessed? {
      SlotEventMoves(s, e);
      SlotsShape(s, Apply(s, e));
    } else {
      ControlShape(s, e);
    }
  }
}
