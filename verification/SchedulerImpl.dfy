/** src/SchedulerImpl.cpp and src/ChannelImpl.cpp as objects.

    Each method is one locked region, or a part of one; its contract equates the new state with
    the function of module Scheduling, Channels or Workers whose properties are proved there.
    Pointers to channels and monitor objects are identifiers, slots are indices into the pool.
  */
module SchedulerObjects {
  import opened Heaps
  import opened SteadyHeaps
  import opened Scheduling
  import opened Channels
  import opened Workers
  import opened Runs
  import opened Reservation
  import ByteOrder
  import Wire
  import Aggregates
  import Senders
  import Profiles
  import opened ProfileDatas
  import opened ProfilerImpls

  datatype Option<T> = None | Some(value: T)

  function WithChannel(s: Sched, config: ChannelConfig): Sched {
    Sched(s.config + [config],
          s.queued + [[]],
          if config.state in s.queues then s.queues else s.queues[config.state := ChannelHeap(true, [])],
          s.ready)
  }

  /** Registering the channels one by one gives the scheduler a run starts from. */
  lemma RegistrationStartsRuns(config: seq<ChannelConfig>, next: ChannelConfig)
    ensures InitialSched([]) == Sched([], [], map[], [])
    ensures WithChannel(InitialSched(config), next) == InitialSched(config + [next])
  {
    var all := config + [next];
    forall st ensures st in StatesOf(all) <==> st in StatesOf(config) || st == next.state {
      if st in StatesOf(config) {
        var c :| 0 <= c < |config| && config[c].state == st;
        assert all[c].state == st;
      }
      assert all[|config|].state == next.state;
    }
    assert WithChannel(InitialSched(config), next).queues == InitialSched(all).queues;
    assert WithChannel(InitialSched(config), next).queued == InitialSched(all).queued;
  }

  /** What LogEventTypeRegistrar and the platform give to every profile; `pushed` is the number of
      the event that tracks senders. */
  datatype EventTypes = EventTypes(names: seq<Wire.Text>, pushed: nat, doubles: Aggregates.Doubles, host: ByteOrder.Host)

  ghost predicate EventTypesOk(events: EventTypes) {
    forall k :: 0 <= k < |events.names| ==> Wire.NulFree(events.names[k])
  }

  /** A profile in which nothing has been logged. */
  function EmptyProfile(events: EventTypes, now: int): Profiles.Profile {
    Profiles.Profile(seq(|events.names|, _ => Aggregates.Cleared(events.doubles, now)), Senders.Empty(), |events.names|)
  }

  class EnabledChannelHeap {
    var enabled: bool
    const heap: SteadyHeap<ChannelId>

    constructor ()
      ensures enabled && fresh(heap) && heap.heap == []
    {
      enabled := true;
      heap := new SteadyHeap<ChannelId>();
    }
  }

  class SchedulerImpl {
    var channels: seq<ChannelImpl>
    var queues: map<StateId, EnabledChannelHeap>
    var reserved: Reserved
    const ready: SteadyHeap<StateId>
    const profiler: ProfilerImpl?

    constructor (profiler: ProfilerImpl?)
      ensures Valid() && fresh(ready) && this.profiler == profiler
      ensures View() == Sched([], [], map[], []) && reserved == Reserved(map[], 0)
    {
      channels, queues, reserved, this.profiler := [], map[], Reserved(map[], 0), profiler;
      ready := new SteadyHeap<StateId>();
    }

    /** No two heaps or channels are the same object. */
    ghost predicate Valid()
      reads *
    {
      && (forall i :: 0 <= i < |channels| ==> channels[i].id == i && channels[i].scheduler == this)
      && (forall i, j :: 0 <= i < j < |channels| ==> channels[i] != channels[j] && channels[i].queued != channels[j].queued)
      && (forall x, y :: x in queues && y in queues && x != y ==> queues[x] != queues[y] && queues[x].heap != queues[y].heap)
      && (forall x :: x in queues ==> queues[x].heap as object != ready)
      && (forall i :: 0 <= i < |channels| ==> channels[i].queued as object != ready)
      && (forall i, x :: 0 <= i < |channels| && x in queues ==> channels[i].queued as object != queues[x].heap)
    }

    ghost function Configs(): seq<ChannelConfig>
      reads *
    {
      seq(|channels|, i requires 0 <= i < |channels| reads * => channels[i].config)
    }

    ghost function Queued(): seq<seq<Packet>>
      reads *
    {
      seq(|channels|, i requires 0 <= i < |channels| reads * => channels[i].queued.heap)
    }

    ghost function Heaps(): map<StateId, ChannelHeap>
      reads *
    {
      map st | st in queues :: ChannelHeap(queues[st].enabled, queues[st].heap.heap)
    }

    ghost function View(): Sched
      reads *
    {
      Sched(Configs(), Queued(), Heaps(), ready.heap)
    }

    twostate lemma ChannelRegistered(channel: ChannelImpl)
      requires old(Valid()) && channels == old(channels) + [channel] && channel.queued.heap == []
      requires ready.heap == old(ready.heap)
      requires forall i :: 0 <= i < |old(channels)| ==> channels[i].queued.heap == old(channels[i].queued.heap)
      requires queues.Keys == old(queues).Keys + {channel.config.state}
      requires forall x :: x in old(queues) ==> queues[x] == old(queues[x]) && unchanged(queues[x]) && unchanged(queues[x].heap)
      requires channel.config.state !in old(queues) ==> queues[channel.config.state].enabled && queues[channel.config.state].heap.heap == []
      ensures View() == WithChannel(old(View()), channel.config)
    {
      assert Configs() == old(Configs()) + [channel.config];
      assert Queued() == old(Queued()) + [[]];
      var all := WithChannel(old(View()), channel.config).queues;
      forall x | x in queues ensures x in all && Heaps()[x] == all[x] {
        if x in old(queues) {
          assert Heaps()[x] == old(Heaps())[x];
        }
      }
      assert Heaps() == all;
    }

    twostate lemma ValidWithChannel(channel: ChannelImpl)
      requires old(Valid()) && channels == old(channels) + [channel]
      requires channel.scheduler == this && channel.id == |old(channels)| && channel.queued as object != ready
      requires forall i :: 0 <= i < |old(channels)| ==> channels[i] != channel && channels[i].queued != channel.queued
      requires old(allocated(channel.queued))
      requires forall x :: x in old(queues) ==> x in queues && queues[x] == old(queues[x]) && channel.queued as object != queues[x].heap
      requires forall x :: x in queues && x !in old(queues) ==> x == channel.config.state && fresh(queues[x]) && fresh(queues[x].heap)
      ensures Valid()
    {
    }

    /** What is measured in a channel: its name, the registered event types and the platform. */
    function ProfileOf(channel: ChannelImpl, events: EventTypes): (c: Profiles.Config)
      ensures c.group == channel.name && c.names == events.names && c.doubles == events.doubles
    {
      Profiles.Config(events.doubles, channel.name, events.names)
    }

    /** With a profiler, the channel gets an empty ProfileData of its name, known to the profiler. */
    method CreateProfile(channel: ChannelImpl, events: EventTypes, now: int)
      requires EventTypesOk(events)
      modifies channel`profileData, if profiler == null then {} else {profiler}
      ensures profiler == null ==> channel.profileData == old(channel.profileData)
      ensures profiler != null ==>
        && channel.profileData != null && fresh(channel.profileData) && fresh(channel.profileData.Parts())
        && channel.profileData.Valid() && channel.profileData.config == ProfileOf(channel, events)
        && channel.profileData.host == events.host && channel.profileData.senderLogger.trackEvent == events.pushed
        && channel.profileData.View() == EmptyProfile(events, now)
        && profiler.nextProfileData == old(profiler.nextProfileData) && profiler.sent == old(profiler.sent)
        && profiler.profileData ==
           old(profiler.profileData) + if old(profiler.nextProfileData) == IDLE then [channel.profileData] else []
    {
      if profiler != null {
        var data := new ProfileData(ProfileOf(channel, events), events.host, events.pushed, now);
        channel.profileData := data;
        var _ := profiler.AddProfileData(data);
      }
    }

    /** A new channel, and a new state if it is the state's first channel. */
    method ListChannel(channel: ChannelImpl)
      requires Valid() && reserved.heaps.Keys == queues.Keys
      requires channel.scheduler == this && channel.id == |channels| && channel.queued.heap == []
      requires channel.queued as object != ready
      requires forall i :: 0 <= i < |channels| ==> channels[i] != channel && channels[i].queued != channel.queued
      requires forall x :: x in queues ==> channel.queued as object != queues[x].heap
      modifies this
      ensures Valid() && reserved.heaps.Keys == queues.Keys
      ensures View() == WithChannel(old(View()), channel.config)
      ensures reserved == Register(old(reserved), channel.config.state)
    {
      hide View, Valid;
      channels := channels + [channel];
      var state := channel.config.state;
      if state in queues {
        reserved := reserved.(heaps := reserved.heaps[state := reserved.heaps[state] + 1]);
      } else {
        var chq := new EnabledChannelHeap();
        queues := queues[state := chq];
        reserved := Reserved(reserved.heaps[state := 1], reserved.states + 1);
      }
      ValidWithChannel(channel);
      ChannelRegistered(channel);
    }

    method RegisterChannel(channel: ChannelImpl, events: EventTypes, now: int)
      requires Valid() && reserved.heaps.Keys == queues.Keys && EventTypesOk(events)
      requires channel.scheduler == this && channel.id == |channels| && channel.queued.heap == []
      requires channel.queued as object != ready
      requires forall i :: 0 <= i < |channels| ==> channels[i] != channel && channels[i].queued != channel.queued
      requires forall x :: x in queues ==> channel.queued as object != queues[x].heap
      modifies this, channel`profileData, if profiler == null then {} else {profiler}
      ensures Valid() && reserved.heaps.Keys == queues.Keys
      ensures View() == WithChannel(old(View()), channel.config)
      ensures reserved == Register(old(reserved), channel.config.state)
      ensures if profiler == null then channel.profileData == old(channel.profileData) else
        && channel.profileData != null && fresh(channel.profileData)
        && channel.profileData.Valid() && channel.profileData.config == ProfileOf(channel, events)
        && channel.profileData.host == events.host && channel.profileData.senderLogger.trackEvent == events.pushed
        && channel.profileData.View() == EmptyProfile(events, now)
        && profiler.profileData ==
           old(profiler.profileData) + if old(profiler.nextProfileData) == IDLE then [channel.profileData] else []
    {
      hide View, Valid, ProfileData.Valid, ProfileData.View;
      ListChannel(channel);
      label listed:
      CreateProfile(channel, events, now);
      ReadyChanged@listed();
    }

    /** What ChannelOrdering reads. */
    method CurrentChannelKeys() returns (keys: map<ChannelId, int>)
      ensures keys == ChannelKeys(View().queued)
    {
      keys := map c: nat | c < |channels| && channels[c].queued.heap != [] :: channels[c].queued.heap[0].timestamp;
    }

    /** What StateOrdering reads. */
    method CurrentStateKeys(keys: map<ChannelId, int>) returns (stateKeys: map<StateId, int>)
      ensures stateKeys == StateKeys(keys, View().queues)
    {
      stateKeys := map st | st in queues && queues[st].heap.heap != [] && queues[st].heap.heap[0] in keys :: keys[queues[st].heap.heap[0]];
    }

    /** Nothing is replaced: every object is still the part it was. */
    twostate predicate SameObjects()
      reads *
    {
      channels == old(channels) && queues == old(queues) && reserved == old(reserved)
    }

    twostate predicate SamePacketHeaps()
      requires SameObjects()
      reads *
    {
      forall i :: 0 <= i < |channels| ==> channels[i].queued.heap == old(channels[i].queued.heap)
    }

    twostate predicate SameChannelHeaps()
      requires SameObjects()
      reads *
    {
      forall x :: x in queues ==> queues[x].heap.heap == old(queues[x].heap.heap) && queues[x].enabled == old(queues[x].enabled)
    }

    twostate lemma HeapChanged(st: StateId)
      requires old(Valid()) && st in old(queues)
      requires SameObjects() && SamePacketHeaps() && ready.heap == old(ready.heap)
      requires forall x :: x in queues && x != st ==> queues[x].heap.heap == old(queues[x].heap.heap)
      requires forall x :: x in queues ==> queues[x].enabled == old(queues[x].enabled)
      ensures Valid() && View() == WithHeap(old(View()), st, queues[st].heap.heap)
    {
      assert Configs() == old(Configs());
      assert Queued() == old(Queued());
      forall x | x in queues ensures Heaps()[x] == WithHeap(old(View()), st, queues[st].heap.heap).queues[x] {
        assert x != st ==> Heaps()[x] == old(Heaps())[x];
      }
      assert Heaps() == WithHeap(old(View()), st, queues[st].heap.heap).queues;
    }

    twostate lemma FlagChanged(st: StateId)
      requires old(Valid()) && st in old(queues)
      requires SameObjects() && SamePacketHeaps() && ready.heap == old(ready.heap)
      requires forall x :: x in queues ==> queues[x].heap.heap == old(queues[x].heap.heap)
      requires forall x :: x in queues && x != st ==> queues[x].enabled == old(queues[x].enabled)
      ensures Valid()
      ensures View() == old(View()).(queues := old(View()).queues[st := old(View()).queues[st].(enabled := queues[st].enabled)])
    {
      assert Configs() == old(Configs());
      assert Queued() == old(Queued());
      var flagged := old(View()).queues[st := old(View()).queues[st].(enabled := queues[st].enabled)];
      forall x | x in queues ensures Heaps()[x] == flagged[x] {
        assert x != st ==> Heaps()[x] == old(Heaps())[x];
      }
      assert Heaps() == flagged;
    }

    twostate lemma ReadyChanged()
      requires old(Valid())
      requires SameObjects() && SamePacketHeaps() && SameChannelHeaps()
      ensures Valid() && View() == old(View()).(ready := ready.heap)
      ensures ready.heap == old(ready.heap) ==> View() == old(View())
    {
      assert Configs() == old(Configs());
      assert Queued() == old(Queued());
      forall x | x in queues ensures Heaps()[x] == old(Heaps())[x] {
      }
      assert Heaps() == old(Heaps());
    }

    twostate lemma QueueChanged(c: ChannelId)
      requires old(Valid()) && c < |old(channels)|
      requires SameObjects() && SameChannelHeaps() && ready.heap == old(ready.heap)
      requires forall i :: 0 <= i < |channels| && i != c ==> channels[i].queued.heap == old(channels[i].queued.heap)
      ensures Valid() && View() == WithQueue(old(View()), c, channels[c].queued.heap)
    {
      assert Configs() == old(Configs());
      assert Queued() == old(Queued())[c := channels[c].queued.heap];
      forall x | x in queues ensures Heaps()[x] == old(Heaps())[x] {
      }
      assert Heaps() == old(Heaps());
    }

    /** state_queue_.push_heap */
    method PushState(keys: map<ChannelId, int>, st: StateId)
      requires Valid()
      requires var stateKeys := StateKeys(keys, View().queues); Comparable(stateKeys, View().ready) && st in stateKeys
      modifies ready
      ensures Valid() && unchanged(this`channels)
      ensures View() == old(View()).(ready := Push(StateKeys(keys, old(View()).queues), old(View()).ready, st))
    {
      var stateKeys := CurrentStateKeys(keys);
      ready.PushHeap(stateKeys, st);
      hide Comparable;
      ReadyChanged();
    }

    method RemoveReady(stateKeys: map<StateId, int>, st: StateId)
      requires Valid() && Removable(stateKeys, ready.heap, st)
      modifies ready
      ensures Valid() && unchanged(this`channels) && View() == old(View()).(ready := ForcePop(stateKeys, old(ready.heap), st))
    {
      hide Removable, ForcePop, Ordered, Comparable;
      ready.ForcePopHeap(stateKeys, st);
      ReadyChanged();
    }

    method ReinsertReady(stateKeys: map<StateId, int>, st: StateId)
      requires Valid() && Removable(stateKeys, ready.heap, st) && st in stateKeys
      modifies ready
      ensures Valid() && unchanged(this`channels) && View() == old(View()).(ready := Reinsert(stateKeys, old(ready.heap), st))
    {
      hide Removable, Reinsert;
      ready.ReinsertHeap(stateKeys, st);
      ReadyChanged();
    }

    /** state_queue_.force_pop_heap */
    method RemoveState(keys: map<ChannelId, int>, st: StateId)
      requires Valid()
      requires Removable(StateKeys(keys, View().queues), View().ready, st)
      modifies ready
      ensures Valid() && unchanged(this`channels)
      ensures View() == old(View()).(ready := ForcePop(StateKeys(keys, old(View()).queues), old(View()).ready, st))
    {
      var stateKeys := CurrentStateKeys(keys);
      assert ready.heap == View().ready;
      hide View, Valid, Removable, StateKeys, ForcePop;
      RemoveReady(stateKeys, st);
    }

    /** state_queue_.force_pop_heap, then state_queue_.push_heap */
    method ReinsertState(keys: map<ChannelId, int>, st: StateId)
      requires Valid()
      requires var stateKeys := StateKeys(keys, View().queues); Removable(stateKeys, View().ready, st) && st in stateKeys
      modifies ready
      ensures Valid() && unchanged(this`channels)
      ensures View() == old(View()).(ready := Reinsert(StateKeys(keys, old(View()).queues), old(View()).ready, st))
    {
      var stateKeys := CurrentStateKeys(keys);
      assert ready.heap == View().ready;
      hide View, Valid, Removable, StateKeys, Reinsert;
      ReinsertReady(stateKeys, st);
    }

    /** The state is taken out first if it is in state_queue_ already. */
    method RaiseState(keys: map<ChannelId, int>, st: StateId, again: bool)
      requires Valid()
      requires var stateKeys := StateKeys(keys, View().queues);
        && st in stateKeys
        && if again then Removable(stateKeys, View().ready, st) else Comparable(stateKeys, View().ready)
      modifies ready
      ensures Valid() && unchanged(this`channels)
      ensures var stateKeys := StateKeys(keys, old(View()).queues);
        View() == old(View()).(ready := if again then Reinsert(stateKeys, old(View()).ready, st) else Push(stateKeys, old(View()).ready, st))
    {
      hide Removable, Comparable;
      if again {
        ReinsertState(keys, st);
      } else {
        PushState(keys, st);
      }
    }

    /** state_queue_.pop_heap */
    method PopState(keys: map<ChannelId, int>)
      requires Valid()
      requires View().ready != [] && Comparable(StateKeys(keys, View().queues), View().ready[1..])
      modifies ready
      ensures Valid() && unchanged(this`channels)
      ensures View() == old(View()).(ready := Pop(StateKeys(keys, old(View()).queues), old(View()).ready))
    {
      var stateKeys := CurrentStateKeys(keys);
      ready.PopHeap(stateKeys);
      hide Comparable, StateKeys, Pop;
      ReadyChanged();
    }

    /** chq.heap.push_heap */
    method PushChannel(keys: map<ChannelId, int>, st: StateId, c: ChannelId)
      requires Valid() && st in queues
      requires Comparable(keys, View().queues[st].heap) && c in keys
      modifies queues[st].heap
      ensures Valid() && unchanged(this`channels) && View() == WithHeap(old(View()), st, Push(keys, old(View()).queues[st].heap, c))
      ensures queues[st].heap.heap == View().queues[st].heap
    {
      queues[st].heap.PushHeap(keys, c);
      hide Comparable, Removable, Ordered;
      hide Push, ForcePop, Reinsert;
      HeapChanged(st);
    }

    /** chq.heap.force_pop_heap */
    method RemoveChannel(keys: map<ChannelId, int>, st: StateId, c: ChannelId)
      requires Valid() && st in queues
      requires Removable(keys, View().queues[st].heap, c)
      modifies queues[st].heap
      ensures Valid() && unchanged(this`channels) && View() == WithHeap(old(View()), st, ForcePop(keys, old(View()).queues[st].heap, c))
      ensures queues[st].heap.heap == View().queues[st].heap
    {
      hide Comparable, Removable, Ordered;
      hide Push, ForcePop, Reinsert;
      queues[st].heap.ForcePopHeap(keys, c);
      HeapChanged(st);
    }

    /** chq.heap.force_pop_heap, then chq.heap.push_heap */
    method ReinsertChannel(keys: map<ChannelId, int>, st: StateId, c: ChannelId)
      requires Valid() && st in queues
      requires Removable(keys, View().queues[st].heap, c) && c in keys
      modifies queues[st].heap
      ensures Valid() && unchanged(this`channels) && View() == WithHeap(old(View()), st, Reinsert(keys, old(View()).queues[st].heap, c))
      ensures queues[st].heap.heap == View().queues[st].heap
    {
      assert View().queues[st].heap == queues[st].heap.heap;
      hide View, Valid, Comparable, Removable, Ordered, Reinsert;
      ReinsertIn(keys, st, c);
    }

    method ReinsertIn(keys: map<ChannelId, int>, st: StateId, c: ChannelId)
      requires Valid() && st in queues
      requires Removable(keys, queues[st].heap.heap, c) && c in keys
      modifies queues[st].heap
      ensures Valid() && unchanged(this`channels)
      ensures View() == WithHeap(old(View()), st, queues[st].heap.heap)
      ensures queues[st].heap.heap == View().queues[st].heap
      ensures queues[st].heap.heap == Reinsert(keys, old(queues[st].heap.heap), c)
    {
      queues[st].heap.ReinsertHeap(keys, c);
      hide Comparable, Removable, Ordered, Push, ForcePop, Reinsert;
      HeapChanged(st);
    }

    lemma ViewOfReady()
      requires Valid()
      ensures forall x, y :: x in queues && y in queues && x != y ==> queues[x] != queues[y]
      ensures var s := View();
        && s.ready == ready.heap && s.queues.Keys == queues.Keys
        && forall st :: st in queues ==> s.queues[st] == ChannelHeap(queues[st].enabled, queues[st].heap.heap)
    {
    }

    lemma ViewOfState(c: ChannelId)
      requires c < |channels|
      ensures var s := View();
        && |s.config| == |channels| && s.config[c] == channels[c].config && s.ready == ready.heap
        && s.queues.Keys == queues.Keys
        && forall st :: st in queues ==> s.queues[st] == ChannelHeap(queues[st].enabled, queues[st].heap.heap)
    {
    }

    method JobsArrived(c: ChannelId) returns (notify: bool)
      requires Valid() && c < |channels|
      requires Listed(View(), c, NonEmpty(View().queued) - {c}) && View().queued[c] != []
      modifies ready, queues[View().config[c].state].heap
      ensures Valid() && unchanged(this`channels)
      ensures (View(), notify) == Scheduling.JobsArrived(old(View()), c)
    {
      hide View, Valid, HeapLists, StatesListed, ChannelsListed, Removable, Push, Reinsert, StateKeys;
      ViewOfState(c);
      ghost var s := View();
      var st := channels[c].config.state;
      var chq := queues[st];
      var keys := CurrentChannelKeys();
      ChannelsDefined(s, c, NonEmpty(s.queued) - {c});
      var earliest := if chq.heap.heap == [] then MAX_TIME else keys[chq.heap.heap[0]];
      PushChannel(keys, st, c);
      notify := chq.enabled && keys[chq.heap.heap[0]] < earliest;
      if notify {
        StatesDefined(s, c, NonEmpty(s.queued) - {c}, chq.heap.heap);
        RaiseState(keys, st, earliest != MAX_TIME);
      }
    }

    method JobsUpdated(c: ChannelId, wasPush: bool) returns (notify: bool)
      requires Valid() && c < |channels|
      requires Listed(View(), c, NonEmpty(View().queued)) && View().queued[c] != []
      modifies ready, queues[View().config[c].state].heap
      ensures Valid() && unchanged(this`channels)
      ensures (View(), notify) == Scheduling.JobsUpdated(old(View()), c, wasPush)
    {
      hide View, Valid, HeapLists, StatesListed, ChannelsListed, Removable, Push, Reinsert, ForcePop, StateKeys;
      ViewOfState(c);
      ghost var s := View();
      var st := channels[c].config.state;
      var chq := queues[st];
      var keys := CurrentChannelKeys();
      ChannelsDefined(s, c, NonEmpty(s.queued));
      var wasTop := chq.heap.heap[0] == c;
      var earliest := keys[chq.heap.heap[0]];
      ReinsertChannel(keys, st, c);
      notify := false;
      if chq.enabled && (keys[chq.heap.heap[0]] != earliest || wasTop) {
        StatesDefined(s, c, NonEmpty(s.queued), chq.heap.heap);
        ReinsertState(keys, st);
        notify := wasPush;
        assert (View(), notify) == Scheduling.JobsUpdated(s, c, wasPush);
      } else {
        assert (View(), notify) == Scheduling.JobsUpdated(s, c, wasPush);
      }
    }

    method JobsDropped(c: ChannelId)
      requires Valid() && c < |channels|
      requires Listed(View(), c, NonEmpty(View().queued) + {c}) && View().queued[c] == []
      modifies ready, queues[View().config[c].state].heap
      ensures Valid() && unchanged(this`channels)
      ensures View() == Scheduling.JobsDropped(old(View()), c)
    {
      hide View, Valid, HeapLists, StatesListed, ChannelsListed, Removable, Push, Reinsert, ForcePop, StateKeys;
      ViewOfState(c);
      ghost var s := View();
      var st := channels[c].config.state;
      var chq := queues[st];
      var keys := CurrentChannelKeys();
      ChannelsDefined(s, c, NonEmpty(s.queued) + {c});
      var wasTop := chq.heap.heap[0] == c;
      RemoveChannel(keys, st, c);
      if chq.enabled && wasTop {
        StatesDefined(s, c, NonEmpty(s.queued) + {c}, chq.heap.heap);
        if chq.heap.heap != [] {
          ReinsertState(keys, st);
        } else {
          RemoveState(keys, st);
        }
      }
    }

    /** chq.enabled = false; state_queue_.pop_heap() */
    method DisableFront()
      requires Valid() && Coherent(View()) && View().ready != []
      requires View().ready[0] in queues
      modifies ready, queues[View().ready[0]]
      ensures Valid() && unchanged(this)
      ensures View() == Disable(old(View()))
    {
      hide Coherent, Valid, View, StateKeys, ChannelKeys, Comparable, Pop, Disable;
      ghost var s := View();
      ViewOfReady();
      DisableParts(s);
      var st := ready.heap[0];
      queues[st].enabled := false;
      FlagChanged(st);
      var keys := CurrentChannelKeys();
      PopState(keys);
    }

    /** The first locked region of RunTasks, once state_queue_ is known not to be empty. */
    method TakeTask() returns (task: Task)
      requires Valid() && Coherent(View()) && View().ready != []
      modifies ready, set x | x in queues :: queues[x]
      modifies set x | x in queues :: queues[x].heap
      modifies set i | 0 <= i < |channels| :: channels[i].queued
      ensures Valid() && unchanged(this`channels)
      ensures (View(), task) == Take(old(View()))
    {
      ghost var s := View();
      FrontIsSound(s);
      var st := ready.heap[0];
      var c := queues[st].heap.heap[0];
      if st != STATELESS {
        DisableFront();
        DisableCoherent(s);
      }
      var packet := channels[c].PopNext();
      task := Task(st, c, packet);
    }

    /** The second locked region of RunTasks, for a task whose state is not nullptr. */
    method FinishTask(st: StateId)
      requires Valid() && Coherent(View())
      requires st in queues && !queues[st].enabled
      modifies ready, queues[st]
      ensures Valid()
      ensures View() == Finish(old(View()), st)
    {
      hide Coherent, Valid, View, StateKeys, ChannelKeys, Comparable, Push, Finish;
      ghost var s := View();
      ViewOfReady();
      FinishParts(s, st);
      queues[st].enabled := true;
      FlagChanged(st);
      if queues[st].heap.heap != [] {
        var keys := CurrentChannelKeys();
        PushState(keys, st);
      }
    }
  }

  class ChannelImpl {
    const id: ChannelId
    const config: ChannelConfig
    const scheduler: SchedulerImpl
    const queued: SteadyHeap<Packet>
    const name: Wire.Text
    var free: seq<Slot>
    var profileData: ProfileData?

    /** All slots are free; the first one is on top of the stack. */
    constructor (name: Wire.Text, id: ChannelId, config: ChannelConfig, scheduler: SchedulerImpl)
      ensures this.name == name && this.id == id && this.config == config && this.scheduler == scheduler
      ensures profileData == null
      ensures fresh(queued) && queued.heap == []
      ensures free == FreeStack(config.capacity)
    {
      this.name, this.id, this.config, this.scheduler := name, id, config, scheduler;
      profileData := null;
      queued := new SteadyHeap<Packet>();
      free := [];
      new;
      var i := config.capacity;
      while i > 0
        invariant 0 <= i <= config.capacity
        invariant free == FreeStack(config.capacity)[..config.capacity - i]
        invariant queued.heap == [] && profileData == null
      {
        i := i - 1;
        free := free + [i];
      }
    }

    /** This is the scheduler's channel number `id`. */
    ghost predicate Registered()
      reads *
    {
      && scheduler.Valid()
      && id < |scheduler.channels|
      && scheduler.channels[id] == this
    }

    /** queued_packets_.push_heap */
    method PushQueued(packet: Packet)
      requires Registered() && QueueOk(queued.heap) && packet.timestamp < MAX_TIME
      modifies queued
      ensures Registered() && unchanged(scheduler)
      ensures queued.heap == Enqueue(old(queued.heap), packet)
      ensures scheduler.View() == WithQueue(old(scheduler.View()), id, queued.heap)
    {
      EnqueueOk(queued.heap, packet);
      queued.PushHeap(PacketKeys(queued.heap + [packet]), packet);
      hide QueueOk, Ordered;
      scheduler.QueueChanged(id);
    }

    /** queued_packets_.pop_heap */
    method PopQueued()
      requires Registered() && QueueOk(queued.heap) && queued.heap != []
      modifies queued
      ensures Registered() && unchanged(scheduler)
      ensures queued.heap == Dequeue(old(queued.heap))
      ensures scheduler.View() == WithQueue(old(scheduler.View()), id, queued.heap)
    {
      DequeueOk(queued.heap);
      queued.PopHeap(PacketKeys(queued.heap));
      hide QueueOk, Ordered;
      scheduler.QueueChanged(id);
    }

    lemma ViewOfChannel()
      requires Registered()
      ensures var s := scheduler.View();
        id < |s.queued| && id < |s.config| && s.queued[id] == queued.heap && s.config[id] == config
    {
    }

    lemma CoherentQueue(s: Sched)
      requires Coherent(s) && id < |s.queued| && s.queued[id] == queued.heap
      ensures QueueOk(queued.heap)
    {
    }

    /** ChannelImpl::Push, under the lock of the job queue. */
    method Push(packet: Packet) returns (notify: bool)
      requires Registered() && Coherent(scheduler.View()) && packet.timestamp < MAX_TIME
      requires config.state in scheduler.queues
      modifies queued, scheduler.ready, scheduler.queues[config.state].heap
      ensures Registered()
      ensures (scheduler.View(), notify) == PushPacket(old(scheduler.View()), id, packet)
    {
      hide Coherent, QueueOk, Listed, Enqueue, PushPacket, Scheduling.JobsArrived, Scheduling.JobsUpdated, SchedulerImpl.Valid, SchedulerImpl.View;
      ghost var s := scheduler.View();
      ViewOfChannel();
      CoherentQueue(s);
      PushBranches(s, id, packet);
      var earliest := if queued.heap == [] then MAX_TIME else queued.heap[0].timestamp;
      PushQueued(packet);
      notify := false;
      if config.scheduled && queued.heap[0].timestamp < earliest {
        if earliest == MAX_TIME {
          notify := scheduler.JobsArrived(id);
        } else {
          notify := scheduler.JobsUpdated(id, true);
        }
      }
    }

    /** ChannelImpl::PopNext. */
    method PopNext() returns (packet: Packet)
      requires Registered() && Coherent(scheduler.View()) && queued.heap != []
      requires config.state in scheduler.queues
      modifies queued, scheduler.ready, scheduler.queues[config.state].heap
      ensures Registered() && unchanged(scheduler`channels)
      ensures (scheduler.View(), packet) == Channels.PopNext(old(scheduler.View()), id)
    {
      ghost var s := scheduler.View();
      ViewOfChannel();
      CoherentQueue(s);
      hide Coherent, QueueOk, Listed, SchedulerImpl.Valid, SchedulerImpl.View;
      packet := queued.heap[0];
      PopQueued();
      if config.scheduled {
        Channels.QueueChanged(s, id, queued.heap);
        NonEmptyAfter(s, id, queued.heap);
        if queued.heap == [] {
          scheduler.JobsDropped(id);
        } else if packet != queued.heap[0] {
          var _ := scheduler.JobsUpdated(id, false);
        }
      }
    }

    /** ChannelImpl::GetNext: the earliest packet, or nothing. */
    method GetNext() returns (packet: Option<Packet>)
      requires Registered() && Coherent(scheduler.View())
      requires config.state in scheduler.queues
      modifies queued, scheduler.ready, scheduler.queues[config.state].heap
      ensures Registered() && unchanged(scheduler`channels)
      ensures (scheduler.View(), packet) == NextPacket(old(scheduler.View()), id)
    {
      ViewOfChannel();
      hide Coherent, SchedulerImpl.Valid, SchedulerImpl.View;
      if queued.heap != [] {
        var p := PopNext();
        packet := Some(p);
      } else {
        packet := None;
      }
    }

    /** The locked region of ChannelImpl::Acquire. */
    method PopFree() returns (slot: Option<Slot>)
      requires Registered()
      modifies this`free
      ensures Registered() && scheduler.View() == old(scheduler.View())
      ensures old(free) == [] ==> slot == None && free == []
      ensures old(free) != [] ==> slot == Some(old(free)[|old(free)| - 1]) && free == old(free)[..|old(free)| - 1]
    {
      slot := None;
      if free != [] {
        slot := Some(free[|free| - 1]);
        free := free[..|free| - 1];
        OnlyFree();
      }
    }

    /** ChannelImpl::Release. */
    method Release(slot: Slot)
      modifies this`free
      ensures free == old(free) + [slot]
    {
      free := free + [slot];
    }

    /** ChannelImpl::TryDroppingPacket. */
    method TryDroppingPacket() returns (dropped: bool)
      requires Registered() && Coherent(scheduler.View())
      requires config.state in scheduler.queues
      modifies this`free, queued, scheduler.ready, scheduler.queues[config.state].heap
      ensures Registered()
      ensures var (s, p) := NextPacket(old(scheduler.View()), id);
        && scheduler.View() == s
        && dropped == p.Some?
        && free == old(free) + if p.Some? then [p.value.slot] else []
    {
      hide Coherent, SchedulerImpl.Valid, NextPacket, SchedulerImpl.View, Registered;
      var packet := GetNext();
      dropped := packet.Some?;
      label Popped:
      if dropped {
        Release(packet.value.slot);
        assert scheduler.View() == old@Popped(scheduler.View()) && Registered() by { OnlyFree@Popped(); }
      }
    }

    twostate lemma OnlyFree()
      requires old(Registered()) && unchanged(scheduler) && unchanged(scheduler.ready)
      requires forall i :: 0 <= i < |scheduler.channels| ==> unchanged(scheduler.channels[i].queued)
      requires forall x :: x in scheduler.queues ==> unchanged(scheduler.queues[x]) && unchanged(scheduler.queues[x].heap)
      ensures Registered() && scheduler.View() == old(scheduler.View())
    {
      scheduler.ReadyChanged();
    }

    /** ChannelImpl::Acquire, with no other thread in between. */
    method Acquire() returns (slot: Option<Slot>)
      requires Registered() && Coherent(scheduler.View())
      requires config.state in scheduler.queues
      modifies this`free, queued, scheduler.ready, scheduler.queues[config.state].heap
      ensures Registered()
      ensures (scheduler.View(), free, slot) == Acquired(old(scheduler.View()), old(free), id)
    {
      ViewOfChannel();
      hide Coherent, SchedulerImpl.Valid, SchedulerImpl.View;
      ghost var next := NextPacket(scheduler.View(), id);
      slot := None;
      var i := 0;
      var goOn := true;
      while goOn
        invariant 0 <= i <= 2 && (goOn ==> i < 2)
        invariant Registered()
        invariant goOn && i == 0 ==> free == old(free) && scheduler.View() == old(scheduler.View())
        invariant goOn && i == 1 ==>
          old(free) == [] && scheduler.View() == next.0 && next.1.Some? && free == [next.1.value.slot]
        invariant !goOn ==> (scheduler.View(), free, slot) == Acquired(old(scheduler.View()), old(free), id)
        decreases 2 - i, goOn
      {
        slot := PopFree();
        i := i + 1;
        if slot != None || i >= 2 {
          goOn := false;
        } else {
          goOn := TryDroppingPacket();
        }
      }
    }
  }

  /** What ChannelImpl::GetNext does to the scheduler, and what it returns. */
  function NextPacket(s: Sched, c: ChannelId): (r: (Sched, Option<Packet>))
    requires Coherent(s) && c < |s.config|
  {
    if s.queued[c] == [] then (s, None) else
      var (s', p) := Channels.PopNext(s, c);
      (s', Some(p))
  }

  /** What ChannelImpl::Acquire does to the scheduler and the free stack, and what it returns. */
  function Acquired(s: Sched, free: seq<Slot>, c: ChannelId): (r: (Sched, seq<Slot>, Option<Slot>))
    requires Coherent(s) && c < |s.config|
  {
    if free != [] then (s, free[..|free| - 1], Some(free[|free| - 1])) else
      var (s', p) := NextPacket(s, c);
      (s', [], if p.Some? then Some(p.value.slot) else None)
  }

  ghost predicate DropsOldest(q: seq<Packet>, q': seq<Packet>, p: Packet) {
    && p in q
    && multiset(q') == multiset(q) - multiset{p}
    && forall r :: r in q ==> p.timestamp <= r.timestamp
  }

  /** Nothing but the queue of `c` differs: the other queues, the channels and the flags are the same. */
  ghost predicate OnlyQueue(s: Sched, s': Sched, c: ChannelId) {
    && Coherent(s') && s'.config == s.config && |s'.queued| == |s.queued|
    && (forall d :: 0 <= d < |s.queued| && d != c ==> s'.queued[d] == s.queued[d])
    && s'.queues.Keys == s.queues.Keys
    && (forall st :: st in s.queues ==> s'.queues[st].enabled == s.queues[st].enabled)
  }

  /** GetNext returns nothing exactly if nothing is queued; otherwise the front of the queue, no later
      than any other packet, and only that packet is gone. */
  lemma GetNextTakesFront(s: Sched, c: ChannelId)
    requires Coherent(s) && c < |s.config|
    ensures var (s', p) := NextPacket(s, c);
      && OnlyQueue(s, s', c) && c < |s.queued|
      && (p == None <==> s.queued[c] == [])
      && (p == None ==> s' == s)
      && (p.Some? ==> p.value == s.queued[c][0] && DropsOldest(s.queued[c], s'.queued[c], p.value))
  {
    if s.queued[c] != [] {
      PopNextCoherent(s, c);
      DequeueOk(s.queued[c]);
    }
  }

  /** Acquire fails only if there is neither a free slot nor a queued packet, and then changes
      nothing.  With a free slot it takes the one on top of the stack and touches no queue; without
      one it drops one packet, no later than any other of the channel, and hands out its slot. */
  lemma AcquireDropsOldest(s: Sched, free: seq<Slot>, c: ChannelId)
    requires Coherent(s) && c < |s.config|
    ensures var (s', free', slot) := Acquired(s, free, c);
      && OnlyQueue(s, s', c) && c < |s.queued|
      && (slot == None <==> free == [] && s.queued[c] == [])
      && (slot == None ==> s' == s && free' == free)
      && (free != [] ==> s' == s && slot.Some? && free == free' + [slot.value])
      && (slot.Some? && free == [] ==>
            free' == [] && exists p :: DropsOldest(s.queued[c], s'.queued[c], p) && slot == Some(p.slot))
  {
    hide Coherent, Channels.PopNext, DropsOldest, OnlyQueue;
    GetNextTakesFront(s, c);
    SameQueue(s, c);
    if free == [] && s.queued[c] != [] {
      var (s', p) := NextPacket(s, c);
      assert DropsOldest(s.queued[c], s'.queued[c], p.value);
    }
  }

  lemma SameQueue(s: Sched, c: ChannelId)
    requires Coherent(s)
    ensures OnlyQueue(s, s, c)
  {
  }

  /** Of all slots, those that Acquire leaves on the free stack or hands out are the ones that were
      free, and the one of the packet it drops. */
  lemma AcquireKeepsSlots(s: Sched, free: seq<Slot>, c: ChannelId)
    requires Coherent(s) && c < |s.config|
    ensures var (s', free', slot) := Acquired(s, free, c);
      var handed := if slot.Some? then multiset{slot.value} else multiset{};
      && c < |s.queued|
      && (free != [] ==> multiset(free') + handed == multiset(free))
      && (free == [] && slot.Some? ==>
            exists p :: DropsOldest(s.queued[c], s'.queued[c], p) && multiset(free') + handed == multiset{p.slot})
      && (slot == None ==> multiset(free') == multiset(free))
  {
    hide Coherent, Acquired, DropsOldest, OnlyQueue;
    AcquireDropsOldest(s, free, c);
  }
}
