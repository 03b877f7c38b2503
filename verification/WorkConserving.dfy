/** When an idle worker may sleep although there is work.

    Push notifies one worker per state that becomes ready, and the finish step none, because
    the finishing worker goes on itself.  That suffices for states that are disabled while one
    of their callbacks runs.  It does not for nullptr, the state of all stateless channels, as
    soon as two of their packets can be queued and there are two workers: WorkersMaySleepIff. */
module WorkConserving {
  import opened Heaps
  import opened Scheduling
  import opened Channels
  import opened Workers
  import opened Runs
  import opened Safety

  /** Workers that will look at the ready heap before they sleep. */
  function Seekers(s: System): nat {
    s.workers[AtTop] + s.workers[Checked]
  }

  /** If any worker sleeps, there are at least as many seekers as ready states. */
  ghost predicate WorkConserved(s: System) {
    s.phase.Running? && s.workers[Blocked] > 0 ==> |s.sched.ready| <= Seekers(s)
  }

  lemma SizeWithout<T>(a: seq<T>, x: T)
    ensures |a| == |multiset(a)[x := 0]| + Count(a, x)
  {
    assert multiset(a) == multiset(a)[x := 0][x := Count(a, x)];
    assert |multiset(a)| == |a|;
  }

  lemma SizesDiffer<T>(a: seq<T>, b: seq<T>, x: T)
    requires forall y :: y != x ==> Count(a, y) == Count(b, y)
    ensures |a| - Count(a, x) == |b| - Count(b, x)
  {
    SizeWithout(a, x);
    SizeWithout(b, x);
    var restA, restB := multiset(a)[x := 0], multiset(b)[x := 0];
    forall y ensures restA[y] == restB[y] {
      assert y != x ==> Count(a, y) == Count(b, y);
    }
    assert restA == restB;
  }

  /** A change of one channel's queue and of its state's flag changes the readiness of that
      state alone. */
  lemma OtherStatesSame(s: Sched, s': Sched, c: ChannelId)
    requires Coherent(s) && Coherent(s') && c < |s.config|
    requires s'.config == s.config && s'.queues.Keys == s.queues.Keys
    requires forall d :: 0 <= d < |s.config| && d != c ==> s'.queued[d] == s.queued[d]
    requires forall x :: x in s.queues && x != s.config[c].state ==> s'.queues[x].enabled == s.queues[x].enabled
    ensures |s'.ready| - Count(s'.ready, s.config[c].state) == |s.ready| - Count(s.ready, s.config[c].state)
  {
    hide OrderedUnder, QueueOk, ChannelsListed, NonEmpty;
    var st := s.config[c].state;
    forall x: StateId | x != st ensures Count(s'.ready, x) == Count(s.ready, x) {
      assert x in s'.queues.Keys <==> x in s.queues.Keys;
      if x in s.queues {
        HeapNonEmptyIff(s, x);
        HeapNonEmptyIff(s', x);
        SameBacklog(s, s', c, x);
      }
    }
    SizesDiffer(s'.ready, s.ready, st);
  }

  ghost predicate Backlog(s: Sched, st: StateId)
    requires |s.queued| == |s.config|
  {
    exists c :: 0 <= c < |s.config| && s.config[c].scheduled && s.config[c].state == st && s.queued[c] != []
  }

  lemma SameBacklog(s: Sched, s': Sched, c: ChannelId, x: StateId)
    requires |s.queued| == |s.config| == |s'.queued| && c < |s.config| && s'.config == s.config
    requires forall d :: 0 <= d < |s.config| && d != c ==> s'.queued[d] == s.queued[d]
    requires x != s.config[c].state
    ensures Backlog(s, x) <==> Backlog(s', x)
  {
    if Backlog(s, x) {
      var d :| 0 <= d < |s.config| && s.config[d].scheduled && s.config[d].state == x && s.queued[d] != [];
      assert s'.queued[d] != [];
    }
    if Backlog(s', x) {
      var d :| 0 <= d < |s.config| && s.config[d].scheduled && s.config[d].state == x && s'.queued[d] != [];
      assert s.queued[d] != [];
    }
  }

  lemma CountReady(s: Sched, st: StateId)
    requires Coherent(s)
    ensures Count(s.ready, st) == if st in s.queues && s.queues[st].enabled && Backlog(s, st) then 1 else 0
  {
    hide OrderedUnder, QueueOk, ChannelsListed, NonEmpty;
    if st in s.queues {
      HeapNonEmptyIff(s, st);
    }
  }

  /** A push adds a ready state only if it notifies. */
  lemma PushGrowth(s: Sched, c: ChannelId, p: Packet)
    requires Coherent(s) && c < |s.config| && p.timestamp < MAX_TIME
    ensures var (s', notify) := PushPacket(s, c, p); |s'.ready| <= |s.ready| + if notify then 1 else 0
  {
    var (s', notify) := PushPacket(s, c, p);
    var st := s.config[c].state;
    PushPacketCoherent(s, c, p);
    PushNotifiesIff(s, c, p);
    hide PushPacket, OrderedUnder, QueueOk, ChannelsListed, StatesListed;
    OtherStatesSame(s, s', c);
    CountReady(s, st);
    CountReady(s', st);
    if Backlog(s', st) && !Backlog(s, st) {
      var d :| 0 <= d < |s.config| && s.config[d].scheduled && s.config[d].state == st && s'.queued[d] != [];
      assert d == c;
      assert BeforeAll(s, st, p.timestamp);
    }
  }

  lemma PopShrinks(s: Sched, c: ChannelId)
    requires Coherent(s) && c < |s.config| && s.queued[c] != []
    ensures |PopNext(s, c).0.ready| <= |s.ready|
  {
    var s' := PopNext(s, c).0;
    var st := s.config[c].state;
    PopNextCoherent(s, c);
    hide PopNext, OrderedUnder, QueueOk, ChannelsListed, StatesListed;
    OtherStatesSame(s, s', c);
    CountReady(s, st);
    CountReady(s', st);
  }

  /** Taking a task removes its state from the ready heap, unless the state is nullptr and
      still has packets. */
  lemma TakeShrinks(s: Sched)
    requires Coherent(s) && s.ready != []
    ensures var (s', t) := Take(s);
      |s'.ready| == |s.ready| - if t.state == STATELESS && STATELESS in s'.ready then 0 else 1
  {
    var (s', t) := Take(s);
    TakeEffect(s);
    TakenIsFront(s);
    hide Take, OrderedUnder, QueueOk, ChannelsListed, StatesListed;
    OtherStatesSame(s, s', t.channel);
    CountReady(s, t.state);
    CountReady(s', t.state);
    assert t.state in s.ready ==> Count(s.ready, t.state) > 0;
    assert t.state in s'.ready <==> Count(s'.ready, t.state) > 0;
  }

  lemma FinishGrowth(s: Sched, st: StateId)
    requires Coherent(s) && st in s.queues && !s.queues[st].enabled
    ensures |Finish(s, st).ready| <= |s.ready| + 1
  {
    FinishDefined(s, st);
  }

  // ---------- packets of the null state ----------

  predicate IsStateless(c: ChannelConfig) {
    c.scheduled && c.state == STATELESS
  }

  /** The packets queued in stateless scheduled channels. */
  function StatelessQueued(config: seq<ChannelConfig>, queued: seq<seq<Packet>>): nat
    requires |queued| == |config|
  {
    if config == [] then 0 else
      var n := |config| - 1;
      StatelessQueued(config[..n], queued[..n]) + if IsStateless(config[n]) then |queued[n]| else 0
  }

  /** The slots of stateless scheduled channels. */
  function StatelessCapacity(config: seq<ChannelConfig>): nat {
    if config == [] then 0 else
      var n := |config| - 1;
      StatelessCapacity(config[..n]) + if IsStateless(config[n]) then config[n].capacity else 0
  }

  lemma {:induction false} QueuedChanges(config: seq<ChannelConfig>, queued: seq<seq<Packet>>, c: ChannelId, q: seq<Packet>)
    requires |queued| == |config| && c < |config|
    ensures StatelessQueued(config, queued[c := q]) ==
            StatelessQueued(config, queued) + if IsStateless(config[c]) then |q| - |queued[c]| else 0
  {
    var n := |config| - 1;
    if c == n {
      assert queued[c := q][..n] == queued[..n];
    } else {
      assert queued[c := q][..n] == queued[..n][c := q];
      QueuedChanges(config[..n], queued[..n], c, q);
    }
  }

  lemma {:induction false} QueuedIffBacklog(config: seq<ChannelConfig>, queued: seq<seq<Packet>>)
    requires |queued| == |config|
    ensures StatelessQueued(config, queued) > 0 <==>
      exists c :: 0 <= c < |config| && config[c].scheduled && config[c].state == STATELESS && queued[c] != []
  {
    if config == [] {
    } else {
      var n := |config| - 1;
      QueuedIffBacklog(config[..n], queued[..n]);
      if c :| 0 <= c < n && config[..n][c].scheduled && config[..n][c].state == STATELESS && queued[..n][c] != [] {
        assert config[c].scheduled && config[c].state == STATELESS && queued[c] != [];
      }
      if c :| 0 <= c < |config| && config[c].scheduled && config[c].state == STATELESS && queued[c] != [] {
        assert c < n ==> config[..n][c].scheduled && config[..n][c].state == STATELESS && queued[..n][c] != [];
      }
    }
  }

  lemma {:induction false} QueuedWithinCapacity(config: seq<ChannelConfig>, queued: seq<seq<Packet>>)
    requires |queued| == |config| && forall c :: 0 <= c < |config| ==> |queued[c]| <= config[c].capacity
    ensures StatelessQueued(config, queued) <= StatelessCapacity(config)
  {
    if config == [] {
    } else {
      QueuedWithinCapacity(config[..|config| - 1], queued[..|config| - 1]);
    }
  }

  lemma LosesOne(q: seq<Packet>)
    requires QueueOk(q) && q != []
    ensures |Dequeue(q)| == |q| - 1
  {
    assert q[0] in q;
    assert |multiset(Dequeue(q))| == |multiset(q)| - 1;
  }

  /** The null state stays ready after one of its packets is taken exactly if two are queued. */
  lemma StatelessStaysReady(s: Sched)
    requires Coherent(s) && s.ready != [] && s.ready[0] == STATELESS
    ensures |s.queued| == |s.config|
    ensures STATELESS in Take(s).0.ready <==> StatelessQueued(s.config, s.queued) >= 2
  {
    hide Take, QueuesOk, OrderedUnder, StatesListed, ChannelsListed, StatelessQueued;
    var (s', t) := Take(s);
    TakeEffect(s);
    TakenIsFront(s);
    FrontIsSound(s);
    FrontQueueOk(s, t.channel);
    LosesOne(s.queued[t.channel]);
    QueuedChanges(s.config, s.queued, t.channel, Dequeue(s.queued[t.channel]));
    QueuedIffBacklog(s'.config, s'.queued);
    CountReady(s', STATELESS);
    assert STATELESS in s'.queues <==> STATELESS in s'.queues.Keys;
    assert STATELESS in s'.ready <==> Count(s'.ready, STATELESS) > 0;
  }

  lemma FrontQueueOk(s: Sched, c: ChannelId)
    requires Coherent(s) && c < |s.queued|
    ensures QueueOk(s.queued[c])
  {
  }

  /** When a take leaves a worker asleep beside a ready state: a stateless packet is taken, another
      one is queued, and as many workers are awake as states are ready. */
  ghost predicate LeavesWork(s: System)
    requires |s.sched.queued| == |s.sched.config|
  {
    && s.phase.Running?
    && s.workers[Blocked] > 0
    && s.sched.ready != []
    && s.sched.ready[0] == STATELESS
    && StatelessQueued(s.sched.config, s.sched.queued) >= 2
    && |s.sched.ready| == Seekers(s)
  }

  lemma TakeConservesIff(s: System)
    requires Coherent(s.sched) && s.sched.ready != [] && Checked in s.workers && WorkConserved(s)
    ensures |s.sched.queued| == |s.sched.config|
    ensures WorkConserved(TakeNext(s)) <==> !LeavesWork(s)
  {
    hide Coherent, Take, StatelessQueued;
    QueuesMatch(s.sched);
    if s.sched.ready[0] == STATELESS {
      StatelessStaysReady(s.sched);
    }
    TakeShrinks(s.sched);
    TakenIsFront(s.sched);
    MoveCounts(s.workers, Checked, Executing(Take(s.sched).1.state));
  }

  lemma QueuesMatch(s: Sched)
    requires Coherent(s)
    ensures |s.queued| == |s.config|
  {
  }

  lemma PushConservesWork(s: System, c: ChannelId, p: Packet)
    requires Coherent(s.sched) && WorkConserved(s) && c < |s.sched.config| && p.timestamp < MAX_TIME
    ensures WorkConserved(PushStep(s, c, p))
  {
    hide Coherent, PushPacket, Notify;
    PushGrowth(s.sched, c, p);
    NotifyCounts(s.workers, PushPacket(s.sched, c, p).1);
  }

  lemma PopConservesWork(s: System, c: ChannelId)
    requires Coherent(s.sched) && WorkConserved(s) && c < |s.sched.config|
    ensures WorkConserved(DropOldestStep(s, c)) && WorkConserved(PollStep(s, c))
  {
    if s.sched.queued[c] != [] {
      PopShrinks(s.sched, c);
    }
    hide Coherent, PopNext;
  }

  lemma FinishConservesWork(s: System, st: StateId)
    requires Inv(s) && Enabled(s, FinishTask(st)) && WorkConserved(s)
    ensures st != STATELESS ==> st in s.sched.queues && !s.sched.queues[st].enabled
    ensures WorkConserved(FinishStep(s, st))
  {
    hide SlotsConserved, PacketsConserved, AcquiringOk, MutuallyExclusive, SomeoneAwake, Coherent, Finish;
    EventDefined(s, FinishTask(st));
    if st != STATELESS {
      FinishGrowth(s.sched, st);
    }
    MoveCounts(s.workers, Executing(st), AtTop);
  }

  lemma MoveConservesWork(s: System, from: Worker, to: Worker)
    requires WorkConserved(s) && from in s.workers && from != to
    requires !from.Executing? && !to.Executing?
    requires to == Exited ==> !s.phase.Running?
    requires to == Blocked ==> s.sched.ready == []
    ensures WorkConserved(s.(workers := Move(s.workers, from, to)))
  {
    MoveCounts(s.workers, from, to);
  }

  lemma WorkerEventConserves(s: System, e: Event)
    requires Inv(s) && Enabled(s, e) && WorkConserved(s)
    requires e.Check? || e.Exit? || e.Wait? || e.WakeUp? || e.GiveUp?
    ensures WorkConserved(Apply(s, e))
  {
    hide Inv, Move;
    match e
    case Check => MoveConservesWork(s, AtTop, Checked);
    case Exit => MoveConservesWork(s, AtTop, Exited);
    case Wait => MoveConservesWork(s, Checked, Blocked);
    case WakeUp => MoveConservesWork(s, Blocked, Checked);
    case GiveUp => MoveConservesWork(s, Checked, AtTop);
  }

  lemma QueueEventConserves(s: System, e: Event)
    requires Inv(s) && Enabled(s, e) && WorkConserved(s)
    requires e.PushFilled? || e.DropOldest? || e.Poll? || e.FinishTask?
    ensures WorkConserved(Apply(s, e))
  {
    hide SlotsConserved, PacketsConserved, AcquiringOk, MutuallyExclusive, SomeoneAwake, WorkersCounted, Coherent;
    hide WorkConserved, PushStep, PollStep, DropOldestStep, FinishStep;
    EventDefined(s, e);
    match e
    case PushFilled(c, p) => PushConservesWork(s, c, p);
    case DropOldest(c) => PopConservesWork(s, c);
    case Poll(c) => PopConservesWork(s, c);
    case FinishTask(st) => FinishConservesWork(s, st);
  }

  /** Moving slots changes neither the scheduler nor the workers. */
  lemma SlotEventConserves(s: System, e: Event)
    requires Inv(s) && Enabled(s, e) && WorkConserved(s)
    requires e.AcquireFirst? || e.ReleaseDropped? || e.AcquireAgain? || e.ReleaseProcessed?
    ensures WorkConserved(Apply(s, e))
  {
    hide Inv, Enabled, WorkConserved, Apply;
    SlotEventMoves(s, e);
    SameWork(s, Apply(s, e));
  }

  lemma SameWork(s: System, s': System)
    requires WorkConserved(s)
    requires s'.sched == s.sched && s'.workers == s.workers && s'.phase == s.phase
    ensures WorkConserved(s')
  {
  }

  lemma ControlEventConserves(s: System, e: Event)
    requires Inv(s) && Enabled(s, e) && WorkConserved(s)
    requires e.Tick? || e.StartWorkers? || e.RequestStop? || e.NotifyAll? || e.JoinWorkers?
    ensures WorkConserved(Apply(s, e))
  {
    hide SlotsConserved, PacketsConserved, AcquiringOk, MutuallyExclusive, SomeoneAwake, Coherent;
  }

  lemma TakeIsEnabled(s: System)
    requires Inv(s) && Enabled(s, TakeTask)
    ensures Coherent(s.sched) && s.sched.ready != [] && Checked in s.workers
  {
  }

  /** The one step that can break it is taking a stateless packet while another is queued. */
  lemma StepConservesIff(s: System, e: Event)
    requires Inv(s) && Enabled(s, e) && WorkConserved(s)
    ensures |s.sched.queued| == |s.sched.config|
    ensures WorkConserved(Apply(s, e)) <==> !(e.TakeTask? && LeavesWork(s))
  {
    hide Enabled, WorkConserved, LeavesWork, SlotsConserved, AcquiringOk, MutuallyExclusive, WorkersCounted, SomeoneAwake, PacketsConserved, Coherent, Apply;
    QueuesMatch(s.sched);
    if e.TakeTask? {
      TakeIsEnabled(s);
      TakeConservesIff(s);
      assert Apply(s, e) == TakeNext(s) by { TakeApplied(s); }
    } else if e.Check? || e.Exit? || e.Wait? || e.WakeUp? || e.GiveUp? {
      WorkerEventConserves(s, e);
    } else if e.PushFilled? || e.DropOldest? || e.Poll? || e.FinishTask? {
      QueueEventConserves(s, e);
    } else if e.AcquireFirst? || e.ReleaseDropped? || e.AcquireAgain? || e.ReleaseProcessed? {
      SlotEventConserves(s, e);
    } else {
      ControlEventConserves(s, e);
    }
  }

  lemma TakeApplied(s: System)
    requires Inv(s) && Enabled(s, TakeTask)
    ensures s.sched.ready != [] && Apply(s, TakeTask) == TakeNext(s)
  {
  }

  // ---------- where it holds ----------

  /** Enough workers and enough slots for the one bad step. */
  predicate MaySleep(config: seq<ChannelConfig>, workerCount: nat) {
    workerCount >= 2 && StatelessCapacity(config) >= 2
  }

  lemma LeavesWorkNeeds(s: System)
    requires Inv(s) && Enabled(s, TakeTask)
    ensures |s.sched.queued| == |s.sched.config|
    ensures LeavesWork(s) ==> MaySleep(s.sched.config, s.workerCount)
  {
    hide Coherent, MutuallyExclusive, SomeoneAwake, PacketsConserved, AcquiringOk, StatelessQueued, StatelessCapacity;
    forall c | 0 <= c < |s.sched.config| ensures |s.sched.queued[c]| <= s.sched.config[c].capacity {
      WithinCapacity(s, c);
    }
    QueuedWithinCapacity(s.sched.config, s.sched.queued);
    if s.workers[Blocked] > 0 {
      TwoWorkers(s.workers);
    }
  }

  lemma TwoWorkers(w: multiset<Worker>)
    requires Blocked in w && Checked in w
    ensures |w| >= 2
  {
    AnotherOne(w, Checked, Blocked);
    assert w[Blocked] < |w|;
  }

  lemma {:induction false} RunConserves(s: System, events: seq<Event>)
    requires Inv(s) && IsRun(s, events) && !MaySleep(s.sched.config, s.workerCount) && WorkConserved(s)
    ensures WorkConserved(After(s, events))
    decreases |events|
  {
    hide Inv, Apply, Enabled, WorkConserved, MaySleep, LeavesWork;
    if events == [] {
    } else {
      StepKeeps(s, events[0]);
      StepConfig(s, events[0]);
      StepConservesIff(s, events[0]);
      if events[0].TakeTask? {
        LeavesWorkNeeds(s);
      }
      RunConserves(Apply(s, events[0]), events[1..]);
    }
  }

  /** With one worker, or with at most one slot in stateless scheduled channels, no worker ever
      sleeps while there are more ready states than workers about to serve them. */
  lemma OtherwiseWorkConserving(config: seq<ChannelConfig>, workerCount: nat, s: System)
    requires !MaySleep(config, workerCount) && Reachable(config, workerCount, s)
    ensures WorkConserved(s)
  {
    hide Inv, MaySleep;
    var events :| Leads(config, workerCount, events, s);
    InitialInv(config, workerCount);
    RunConserves(Initial(config, workerCount), events);
  }

  /** No scheduled channel is stateless. */
  ghost predicate Stateful(config: seq<ChannelConfig>) {
    forall c :: 0 <= c < |config| && config[c].scheduled ==> config[c].state != STATELESS
  }

  lemma {:induction false} StatefulHasNoCapacity(config: seq<ChannelConfig>)
    requires Stateful(config)
    ensures StatelessCapacity(config) == 0
  {
    if config == [] {
    } else {
      StatefulHasNoCapacity(config[..|config| - 1]);
    }
  }

  /** In particular if every scheduled channel has a monitor object. */
  lemma StatefulIsWorkConserving(config: seq<ChannelConfig>, workerCount: nat, s: System)
    requires Stateful(config) && Reachable(config, workerCount, s)
    ensures WorkConserved(s)
  {
    StatefulHasNoCapacity(config);
    OtherwiseWorkConserving(config, workerCount, s);
  }

  // ---------- where it fails ----------

  lemma {:induction false} RunAppend(s: System, events: seq<Event>, e: Event)
    requires Inv(s) && IsRun(s, events)
    requires Enabled(After(s, events), e)
    ensures Inv(After(s, events))
    ensures IsRun(s, events + [e]) && After(s, events + [e]) == Apply(After(s, events), e)
    decreases |events|
  {
    hide Inv, Apply, Enabled;
    RunKeeps(s, events);
    if events == [] {
      StepKeeps(s, e);
      assert (events + [e])[1..] == [];
    } else {
      StepKeeps(s, events[0]);
      RunAppend(Apply(s, events[0]), events[1..], e);
      assert (events + [e])[1..] == events[1..] + [e];
    }
  }

  lemma Extend(config: seq<ChannelConfig>, workerCount: nat, s: System, e: Event)
    requires Reachable(config, workerCount, s) && Enabled(s, e)
    ensures Reachable(config, workerCount, Apply(s, e))
  {
    hide Inv, Apply, Enabled;
    InitialInv(config, workerCount);
    var events :| Leads(config, workerCount, events, s);
    RunAppend(Initial(config, workerCount), events, e);
    assert Leads(config, workerCount, events + [e], Apply(s, e));
  }

  lemma StartReachable(config: seq<ChannelConfig>, workerCount: nat)
    requires workerCount > 0
    ensures Reachable(config, workerCount, Initial(config, workerCount))
  {
    hide Inv;
    InitialInv(config, workerCount);
    assert Leads(config, workerCount, [], Initial(config, workerCount));
  }

  /** A worker finds nothing to do and goes to sleep. */
  lemma OneSleeps(config: seq<ChannelConfig>, workerCount: nat, s: System)
    requires Reachable(config, workerCount, s)
    requires s.phase.Running? && s.sched.ready == [] && AtTop in s.workers
    ensures Reachable(config, workerCount, s.(workers := Move(Move(s.workers, AtTop, Checked), Checked, Blocked)))
  {
    hide Inv, Reachable;
    Extend(config, workerCount, s, Check);
    Extend(config, workerCount, s.(workers := Move(s.workers, AtTop, Checked)), Wait);
  }

  /** With nothing ready, all workers that are awake can go to sleep. */
  lemma {:induction false} AllSleep(config: seq<ChannelConfig>, workerCount: nat, s: System, awake: nat)
    requires Reachable(config, workerCount, s)
    requires s.phase.Running? && s.sched.ready == [] && awake <= workerCount
    requires s.workers == multiset{}[AtTop := awake][Blocked := workerCount - awake]
    ensures Reachable(config, workerCount, s.(workers := multiset{}[Blocked := workerCount]))
    decreases awake
  {
    hide Inv, Reachable;
    if awake == 0 {
      assert s.workers == multiset{}[Blocked := workerCount];
    } else {
      OneSleeps(config, workerCount, s);
      var w := Move(Move(s.workers, AtTop, Checked), Checked, Blocked);
      assert w == multiset{}[AtTop := awake - 1][Blocked := workerCount - (awake - 1)];
      AllSleep(config, workerCount, s.(workers := w), awake - 1);
    }
  }

  lemma SlotTaken(config: seq<ChannelConfig>, workerCount: nat, s: System, c: ChannelId)
    requires Reachable(config, workerCount, s)
    requires c < |config| && c < |s.free| && s.free[c] != []
    ensures Reachable(config, workerCount, TakeFree(s, c))
  {
    hide Inv, Reachable;
    Extend(config, workerCount, s, AcquireFirst(c));
  }

  lemma Started(config: seq<ChannelConfig>, workerCount: nat, s: System)
    requires Reachable(config, workerCount, s) && s.phase.Stopped?
    ensures Reachable(config, workerCount, s.(phase := Running, workers := multiset{}[AtTop := workerCount]))
  {
    hide Inv, Reachable;
    Extend(config, workerCount, s, StartWorkers);
  }

  /** Room for two packets: in one stateless channel, or one in each of two. */
  ghost predicate TwoSlots(config: seq<ChannelConfig>, c: ChannelId, d: ChannelId) {
    && c < |config| && IsStateless(config[c])
    && d < |config| && IsStateless(config[d])
    && config[c].capacity >= (if c == d then 2 else 1) && config[d].capacity >= 1
  }

  lemma {:induction false} OneSlotFound(config: seq<ChannelConfig>) returns (c: ChannelId)
    requires StatelessCapacity(config) >= 1
    ensures c < |config| && IsStateless(config[c]) && config[c].capacity >= 1
  {
    var n := |config| - 1;
    if IsStateless(config[n]) && config[n].capacity >= 1 {
      c := n;
    } else {
      c := OneSlotFound(config[..n]);
    }
  }

  lemma {:induction false} TwoSlotsFound(config: seq<ChannelConfig>) returns (c: ChannelId, d: ChannelId)
    requires StatelessCapacity(config) >= 2
    ensures TwoSlots(config, c, d)
  {
    var n := |config| - 1;
    if StatelessCapacity(config[..n]) >= 2 {
      c, d := TwoSlotsFound(config[..n]);
    } else if StatelessCapacity(config[..n]) == 1 {
      c := OneSlotFound(config[..n]);
      d := n;
    } else {
      c, d := n, n;
    }
  }

  /** A packet of `c` and one of `d` are being filled, nothing is queued and everyone sleeps. */
  lemma QuietStart(config: seq<ChannelConfig>, workerCount: nat, c: ChannelId, d: ChannelId) returns (s: System, j: Slot, k: Slot)
    requires workerCount > 0 && TwoSlots(config, c, d)
    ensures Reachable(config, workerCount, s)
    ensures s.phase.Running? && s.sched == InitialSched(config) && s.now == 0
    ensures s.workers == multiset{}[Blocked := workerCount]
    ensures s.filling == multiset{(c, j), (d, k)}
  {
    hide Inv, Reachable, InitialSched;
    StartReachable(config, workerCount);
    var s0 := Initial(config, workerCount);
    SlotTaken(config, workerCount, s0, c);
    var s1 := TakeFree(s0, c);
    SlotTaken(config, workerCount, s1, d);
    var s2 := TakeFree(s1, d);
    Started(config, workerCount, s2);
    var s3 := s2.(phase := Running, workers := multiset{}[AtTop := workerCount]);
    EmptyReady(config);
    assert s3.workers == multiset{}[AtTop := workerCount][Blocked := workerCount - workerCount];
    AllSleep(config, workerCount, s3, workerCount);
    s := s3.(workers := multiset{}[Blocked := workerCount]);
    j, k := s0.free[c][|s0.free[c]| - 1], s1.free[d][|s1.free[d]| - 1];
  }

  lemma EmptyReady(config: seq<ChannelConfig>)
    ensures InitialSched(config).ready == []
    ensures InitialSched(config).config == config
    ensures |InitialSched(config).queued| == |config|
    ensures forall c :: 0 <= c < |config| ==> InitialSched(config).queued[c] == []
    ensures forall c :: 0 <= c < |config| ==> config[c].state in InitialSched(config).queues && InitialSched(config).queues[config[c].state].enabled
  {
    assert forall c :: 0 <= c < |config| ==> config[c].state in StatesOf(config);
  }

  lemma Pushed(config: seq<ChannelConfig>, workerCount: nat, s: System, c: ChannelId, p: Packet)
    requires Reachable(config, workerCount, s) && (c, p.slot) in s.filling && p.timestamp <= s.now
    ensures c < |config| && p.timestamp < MAX_TIME
    ensures Reachable(config, workerCount, PushStep(s, c, p))
  {
    EventDefined(s, PushFilled(c, p));
    hide Inv, Reachable;
    Extend(config, workerCount, s, PushFilled(c, p));
  }

  /** `count` stateless packets are queued and nothing else is ready. */
  ghost predicate OnlyStateless(s: Sched, count: nat) {
    && |s.queued| == |s.config|
    && StatelessQueued(s.config, s.queued) == count
    && STATELESS in s.queues && s.queues[STATELESS].enabled
    && |s.ready| <= 1
  }

  /** The first push of all notifies. */
  lemma FirstPush(config: seq<ChannelConfig>, c: ChannelId, p: Packet)
    requires c < |config| && IsStateless(config[c]) && p.timestamp < MAX_TIME
    ensures var s := InitialSched(config);
      && Coherent(s) && s.config == config
      && var (s', notify) := PushPacket(s, c, p);
      && notify && Coherent(s') && s'.config == config && OnlyStateless(s', 1)
      && s'.queued[c] == [p]
  {
    hide PushPacket, Coherent, InitialSched, Enqueue;
    InitialCoherent(config);
    EmptyReady(config);
    var s := InitialSched(config);
    PushPacketCoherent(s, c, p);
    PushNotifiesIff(s, c, p);
    PushGrowth(s, c, p);
    NothingBefore(s, p.timestamp);
    FirstQueue(s.queued[c], p);
    QueuedIffBacklog(config, s.queued);
    QueuedChanges(config, s.queued, c, Enqueue(s.queued[c], p));
  }

  lemma NothingBefore(s: Sched, t: int)
    requires WellFormed(s) && forall c :: 0 <= c < |s.config| ==> s.queued[c] == []
    ensures forall st :: BeforeAll(s, st, t)
  {
  }

  lemma FirstQueue(q: seq<Packet>, p: Packet)
    requires q == [] && p.timestamp < MAX_TIME
    ensures Enqueue(q, p) == [p]
  {
    var q' := Enqueue(q, p);
    assert |multiset(q')| == 1 && q'[0] in multiset(q');
  }

  lemma GainsOne(q: seq<Packet>, p: Packet)
    requires QueueOk(q) && p.timestamp < MAX_TIME
    ensures |Enqueue(q, p)| == |q| + 1
  {
    assert |multiset(Enqueue(q, p))| == |multiset(q)| + 1;
  }

  /** A second push, of a packet that is not strictly earlier, notifies nobody. */
  lemma SecondPush(s: Sched, c: ChannelId, p: Packet, d: ChannelId, r: Packet)
    requires Coherent(s) && OnlyStateless(s, 1)
    requires c < |s.config| && IsStateless(s.config[c]) && p in s.queued[c]
    requires d < |s.config| && IsStateless(s.config[d]) && p.timestamp <= r.timestamp < MAX_TIME
    ensures var (s', notify) := PushPacket(s, d, r);
      !notify && Coherent(s') && s'.config == s.config && OnlyStateless(s', 2)
  {
    hide PushPacket, Coherent, Enqueue, StatelessQueued, BeforeAll;
    PushPacketCoherent(s, d, r);
    PushNotifiesIff(s, d, r);
    PushGrowth(s, d, r);
    NotBeforeAll(s, c, p, r.timestamp);
    FrontQueueOk(s, d);
    GainsOne(s.queued[d], r);
    QueuedChanges(s.config, s.queued, d, Enqueue(s.queued[d], r));
  }

  lemma NotBeforeAll(s: Sched, c: ChannelId, p: Packet, t: int)
    requires Coherent(s) && c < |s.config| && s.config[c].scheduled && p in s.queued[c] && p.timestamp <= t
    ensures WellFormed(s) && !BeforeAll(s, s.config[c].state, t)
  {
    hide HeapLists, StatesListed, OrderedUnder, QueuesOk;
  }

  lemma OnlyStatelessReady(s: Sched)
    requires Coherent(s) && OnlyStateless(s, 2)
    ensures s.ready == [STATELESS]
  {
    hide Coherent, StatelessQueued;
    CountReady(s, STATELESS);
    QueuedIffBacklog(s.config, s.queued);
    assert Backlog(s, STATELESS);
    assert Count(s.ready, STATELESS) > 0;
    assert STATELESS in s.ready;
  }

  /** Two pushes of equally early packets wake one worker. */
  lemma OneAwake(config: seq<ChannelConfig>, workerCount: nat) returns (s: System)
    requires workerCount > 0 && StatelessCapacity(config) >= 2
    ensures Reachable(config, workerCount, s) && s.phase.Running?
    ensures OnlyStateless(s.sched, 2)
    ensures s.workers == multiset{}[Blocked := workerCount - 1][Checked := 1]
  {
    hide Reachable, Inv, Coherent, InitialSched, PushPacket, StatelessQueued, OnlyStateless, StatelessCapacity;
    var c, d := TwoSlotsFound(config);
    var s0, j, k := QuietStart(config, workerCount, c, d);
    var p, r := Packet(j, 0), Packet(k, 0);
    FirstPush(config, c, p);
    Pushed(config, workerCount, s0, c, p);
    var s1 := PushStep(s0, c, p);
    assert s1.workers == multiset{}[Blocked := workerCount - 1][Checked := 1];
    assert s1.filling == multiset{(d, k)};
    Pushed(config, workerCount, s1, d, r);
    SecondPush(s1.sched, c, p, d, r);
    s := PushStep(s1, d, r);
  }

  lemma OneAwakeLeavesWork(s: System, workerCount: nat)
    requires workerCount >= 2 && Coherent(s.sched) && s.phase.Running? && OnlyStateless(s.sched, 2)
    requires s.workers == multiset{}[Blocked := workerCount - 1][Checked := 1]
    ensures Enabled(s, TakeTask) && WorkConserved(s) && LeavesWork(s)
  {
    hide Coherent, StatelessQueued;
    OnlyStatelessReady(s.sched);
  }

  /** Two workers, and room for two packets in stateless channels, are enough for a worker to sleep
      while a packet waits and nobody is about to take it. */
  lemma StatelessMaySleep(config: seq<ChannelConfig>, workerCount: nat)
    requires MaySleep(config, workerCount)
    ensures exists s :: Reachable(config, workerCount, s) && !WorkConserved(s)
  {
    hide Reachable, WorkConserved, LeavesWork, Inv, Apply, Coherent, OnlyStateless, StatelessCapacity;
    var s := OneAwake(config, workerCount);
    assert Coherent(s.sched) by { InvCoherent(s); }
    OneAwakeLeavesWork(s, workerCount);
    StepConservesIff(s, TakeTask);
    Extend(config, workerCount, s, TakeTask);
    assert Reachable(config, workerCount, Apply(s, TakeTask)) && !WorkConserved(Apply(s, TakeTask));
  }

  lemma InvCoherent(s: System)
    requires Inv(s)
    ensures Coherent(s.sched)
  {
  }

  /** Exactly when some run makes a worker sleep although more states are ready than workers are
      about to serve: there are two workers, and stateless scheduled channels have room for two
      packets, in one channel or in several. */
  lemma WorkersMaySleepIff(config: seq<ChannelConfig>, workerCount: nat)
    requires workerCount > 0
    ensures (exists s :: Reachable(config, workerCount, s) && !WorkConserved(s)) <==>
            workerCount >= 2 && StatelessCapacity(config) >= 2
  {
    hide Reachable, WorkConserved, StatelessCapacity;
    if MaySleep(config, workerCount) {
      StatelessMaySleep(config, workerCount);
    } else {
      forall s | Reachable(config, workerCount, s) ensures WorkConserved(s) {
        OtherwiseWorkConserving(config, workerCount, s);
      }
    }
  }
}
