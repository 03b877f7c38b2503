/** No memory is allocated while running: RegisterChannel reserves room for everything the
    channel heaps, the ready heap, the packet queues and the free stacks will ever hold. */
module Reservation {
  import opened Heaps
  import opened Scheduling
  import opened Runs
  import opened Safety

  /** The capacities reserved so far: of each state's channel heap, and of the ready heap. */
  datatype Reserved = Reserved(heaps: map<StateId, nat>, states: nat)

  /** The reservations of SchedulerImpl::RegisterChannel. */
  function Register(r: Reserved, state: StateId): Reserved {
    if state in r.heaps then
      r.(heaps := r.heaps[state := r.heaps[state] + 1])
    else
      Reserved(r.heaps[state := 1], r.states + 1)
  }

  function RegisterAll(config: seq<ChannelConfig>): (r: Reserved)
    ensures forall c :: 0 <= c < |config| ==> config[c].state in r.heaps
  {
    if config == [] then Reserved(map[], 0) else Register(RegisterAll(config[..|config| - 1]), config[|config| - 1].state)
  }

  function Room(r: Reserved, st: StateId): nat {
    if st in r.heaps then r.heaps[st] else 0
  }

  lemma RoomFor(config: seq<ChannelConfig>, st: StateId)
    requires config != []
    ensures var n := |config| - 1;
      Room(RegisterAll(config), st) == Room(RegisterAll(config[..n]), st) + if config[n].state == st then 1 else 0
  {
  }

  lemma CountsWithout<T>(h: seq<T>, i: nat)
    requires i < |h|
    ensures forall x :: Count(h, x) == Count(h[..i] + h[i + 1..], x) + if x == h[i] then 1 else 0
  {
    WithoutOne(h, i);
  }

  /** The channels of a state. */
  ghost function ChannelsOf(config: seq<ChannelConfig>, st: StateId): set<nat> {
    set c | 0 <= c < |config| && config[c].state == st
  }

  lemma ChannelsGrow(config: seq<ChannelConfig>, st: StateId)
    requires config != []
    ensures var n := |config| - 1;
      |ChannelsOf(config, st)| == |ChannelsOf(config[..n], st)| + if config[n].state == st then 1 else 0
  {
    var n := |config| - 1;
    assert ChannelsOf(config, st) == ChannelsOf(config[..n], st) + if config[n].state == st then {n} else {};
  }

  /** No more than that: exactly as many places as the state has channels ... */
  lemma {:induction false} ReservedExactly(config: seq<ChannelConfig>, st: StateId)
    ensures Room(RegisterAll(config), st) == |ChannelsOf(config, st)|
  {
    if config == [] {
    } else {
      hide Room, RegisterAll, ChannelsOf;
      RoomFor(config, st);
      ChannelsGrow(config, st);
      ReservedExactly(config[..|config| - 1], st);
    }
  }

  /** ... and as many for states as there are states. */
  lemma {:induction false} StatesReservedExactly(config: seq<ChannelConfig>)
    ensures RegisterAll(config).heaps.Keys == StatesOf(config)
    ensures RegisterAll(config).states == |StatesOf(config)|
  {
    if config == [] {
    } else {
      hide StatesOf;
      StatesGrow(config);
      StatesReservedExactly(config[..|config| - 1]);
    }
  }

  lemma StatesGrow(config: seq<ChannelConfig>)
    requires config != []
    ensures StatesOf(config) == StatesOf(config[..|config| - 1]) + {config[|config| - 1].state}
  {
    var n := |config| - 1;
    forall st ensures st in StatesOf(config) <==> st in StatesOf(config[..n]) || st == config[n].state {
      if st in StatesOf(config) {
        var c :| 0 <= c < |config| && config[c].state == st;
        assert c < n ==> config[..n][c].state == st;
      }
      if st in StatesOf(config[..n]) {
        var c :| 0 <= c < n && config[..n][c].state == st;
        assert config[c].state == st;
      }
      assert config[n].state in StatesOf(config);
    }
  }

  /** A channel heap that lists only channels of its state, each once, fits. */
  lemma {:induction false} HeapFits(config: seq<ChannelConfig>, h: seq<ChannelId>, st: StateId)
    requires forall c: ChannelId :: Count(h, c) <= if c < |config| && config[c].state == st then 1 else 0
    ensures |h| <= Room(RegisterAll(config), st)
  {
    hide Room, RegisterAll;
    if config == [] {
      NothingCounted(h);
    } else {
      var n := |config| - 1;
      RoomFor(config, st);
      if n in h {
        var i := IndexOf(h, n);
        CountsWithout(h, i);
        var rest := h[..i] + h[i + 1..];
        assert config[n].state == st;
        forall c: ChannelId ensures Count(rest, c) <= if c < n && config[..n][c].state == st then 1 else 0 {
          assert Count(h, c) == Count(rest, c) + if c == n then 1 else 0;
        }
        HeapFits(config[..n], rest, st);
      } else {
        assert Count(h, n) == 0;
        HeapFits(config[..n], h, st);
      }
    }
  }

  /** A ready heap that lists only known states, each once, fits. */
  lemma {:induction false} ReadyFits(config: seq<ChannelConfig>, ready: seq<StateId>)
    requires forall st: StateId :: Count(ready, st) <= if st in RegisterAll(config).heaps then 1 else 0
    ensures |ready| <= RegisterAll(config).states
  {
    if config == [] {
      forall st: StateId ensures Count(ready, st) == 0 {
        assert st !in RegisterAll(config).heaps;
      }
      NothingCounted(ready);
    } else {
      var n := |config| - 1;
      var last := config[n].state;
      var before := RegisterAll(config[..n]);
      if last in ready && last !in before.heaps {
        var i := IndexOf(ready, last);
        var rest := ready[..i] + ready[i + 1..];
        WithoutOne(ready, i);
        forall st: StateId ensures Count(rest, st) <= if st in before.heaps then 1 else 0 {
          assert Count(rest, st) == if st == last then Count(ready, st) - 1 else Count(ready, st);
        }
        ReadyFits(config[..n], rest);
      } else {
        forall st: StateId ensures Count(ready, st) <= if st in before.heaps then 1 else 0 {
          assert st == last && last !in ready ==> Count(ready, st) == 0;
        }
        ReadyFits(config[..n], ready);
      }
    }
  }

  /** The states a run knows are those of its channels. */
  lemma StatesKnown(config: seq<ChannelConfig>, workerCount: nat, events: seq<Event>, st: StateId)
    requires workerCount > 0
    requires Inv(Initial(config, workerCount)) && IsRun(Initial(config, workerCount), events)
    requires st in After(Initial(config, workerCount), events).sched.queues
    ensures st in RegisterAll(config).heaps
  {
    hide Inv;
    SameStates(Initial(config, workerCount), events);
  }

  lemma {:induction false} SameStates(s: System, events: seq<Event>)
    requires Inv(s) && IsRun(s, events)
    ensures After(s, events).sched.queues.Keys == s.sched.queues.Keys
    decreases |events|
  {
    hide Inv, Apply, Enabled;
    if events == [] {
    } else {
      StepKeeps(s, events[0]);
      StepConfig(s, events[0]);
      SameStates(Apply(s, events[0]), events[1..]);
    }
  }

  lemma ReadyListsStates(s: System, st: StateId)
    requires Inv(s)
    ensures Count(s.sched.ready, st) <= if st in s.sched.queues then 1 else 0
  {
  }

  lemma ReadyHeapFits(config: seq<ChannelConfig>, workerCount: nat, s: System)
    requires Reachable(config, workerCount, s)
    ensures |s.sched.ready| <= RegisterAll(config).states
  {
    hide Inv, RegisterAll, After, IsRun, Initial;
    var events :| Leads(config, workerCount, events, s);
    InitialInv(config, workerCount);
    forall st: StateId ensures Count(s.sched.ready, st) <= if st in RegisterAll(config).heaps then 1 else 0 {
      ReadyListsStates(s, st);
      if st in s.sched.queues {
        StatesKnown(config, workerCount, events, st);
      }
    }
    ReadyFits(config, s.sched.ready);
  }

  lemma PoolsFit(s: System)
    requires Inv(s)
    ensures |s.free| == |s.sched.queued| == |s.sched.config|
    ensures forall c :: 0 <= c < |s.free| ==>
      |s.sched.queued[c]| <= s.sched.config[c].capacity && |s.free[c]| <= s.sched.config[c].capacity
  {
    hide Coherent, PacketsConserved, AcquiringOk, MutuallyExclusive, SomeoneAwake, WorkersCounted;
    forall c | 0 <= c < |s.free|
      ensures |s.sched.queued[c]| <= s.sched.config[c].capacity && |s.free[c]| <= s.sched.config[c].capacity
    {
      WithinCapacity(s, c);
    }
  }

  /** In every reachable state, every container is within what was reserved for it. */
  lemma NothingGrows(config: seq<ChannelConfig>, workerCount: nat, s: System)
    requires Reachable(config, workerCount, s)
    ensures forall st :: st in s.sched.queues ==> |s.sched.queues[st].heap| <= Room(RegisterAll(config), st)
    ensures |s.sched.ready| <= RegisterAll(config).states
    ensures |s.sched.queued| == |s.free| == |config|
    ensures forall c :: 0 <= c < |config| ==> |s.sched.queued[c]| <= config[c].capacity && |s.free[c]| <= config[c].capacity
  {
    hide Reachable, Room, RegisterAll, QueuesOk, ChannelsListed, SlotsConserved;
    ReadyHeapFits(config, workerCount, s);
    PoolsFit(s);
    HeapsFit(s);
  }

  lemma HeapsFit(s: System)
    requires Coherent(s.sched)
    ensures forall st :: st in s.sched.queues ==> |s.sched.queues[st].heap| <= Room(RegisterAll(s.sched.config), st)
  {
    hide OrderedUnder, QueueOk, RegisterAll, StatesListed;
    forall st | st in s.sched.queues ensures |s.sched.queues[st].heap| <= Room(RegisterAll(s.sched.config), st) {
      HeapFits(s.sched.config, s.sched.queues[st].heap, st);
    }
  }
}
