/** Runs seen from the outside: the event machine of the three heaps simulates a machine that knows
    only a bag of packets and a set of busy states; and with one worker it drains the bag. */
module Simulation {
  import opened Heaps
  import opened Scheduling
  import opened Channels
  import opened Workers
  import opened Refinement
  import opened Runs
  import opened Safety

  // ---------- every event ----------

  /** What an event may do to the bag and the busy states. */
  ghost predicate AbstractEvent(config: seq<ChannelConfig>, a: Abstract, e: Event, a': Abstract) {
    match e
    case TakeTask => exists x: Entry :: AbstractTake(config, a, a', x)
    case FinishTask(st) => if st == STATELESS then a' == a else AbstractFinish(a, a', st)
    case PushFilled(c, p) => AbstractPush(a, a', (c, p))
    case DropOldest(c) => MayPop(a, a', c)
    case Poll(c) => MayPop(a, a', c)
    case Wait => a' == a && forall x: Entry :: !MayTake(config, a, x)
    case GiveUp => a' == a && forall x: Entry :: !MayTake(config, a, x)
    case _ => a' == a
  }

  /** A minimal packet of the channel goes, or nothing happens because there is none. */
  ghost predicate MayPop(a: Abstract, a': Abstract, c: ChannelId) {
    if exists p: Packet :: (c, p) in a.bag then exists p: Packet :: AbstractPop(a, a', (c, p)) else a' == a
  }

  lemma PopSimulates(s: Sched, c: ChannelId)
    requires Coherent(s) && c < |s.config|
    ensures |s.queued| == |s.config|
    ensures MayPop(Abs(s), if s.queued[c] == [] then Abs(s) else Abs(PopNext(s, c).0), c)
  {
    if s.queued[c] == [] {
      forall p: Packet ensures (c, p) !in Abs(s).bag {
        BagCounts(s.queued, c, p);
      }
    } else {
      PopRefines(s, c);
    }
    hide Coherent, PopNext, AbstractPop;
  }

  lemma ChannelEventSimulates(s: System, e: Event)
    requires Inv(s) && Enabled(s, e) && (e.PushFilled? || e.DropOldest? || e.Poll?)
    ensures AbstractEvent(s.sched.config, Abs(s.sched), e, Abs(Apply(s, e).sched))
  {
    hide Coherent, SlotsConserved, AcquiringOk, MutuallyExclusive, WorkersCounted, SomeoneAwake, PacketsConserved, PushPacket, PopNext, AbstractPush, MayPop, Abs;
    EventDefined(s, e);
    match e
    case PushFilled(c, p) => PushRefines(s.sched, c, p);
    case DropOldest(c) => PopSimulates(s.sched, c);
    case Poll(c) => PopSimulates(s.sched, c);
  }

  lemma TakeEventSimulates(s: System)
    requires Inv(s) && Enabled(s, TakeTask)
    ensures AbstractEvent(s.sched.config, Abs(s.sched), TakeTask, Abs(Apply(s, TakeTask).sched))
  {
    hide Coherent, SlotsConserved, AcquiringOk, MutuallyExclusive, WorkersCounted, SomeoneAwake, PacketsConserved, Take, Finish, AbstractTake, AbstractFinish, MayTake, Abs;
    EventDefined(s, TakeTask);
    TakeRefines(s.sched);
    var (s', t) := Take(s.sched);
    assert AbstractTake(s.sched.config, Abs(s.sched), Abs(s'), (t.channel, t.packet));
  }

  lemma FinishEventSimulates(s: System, st: StateId)
    requires Inv(s) && Enabled(s, FinishTask(st))
    ensures AbstractEvent(s.sched.config, Abs(s.sched), FinishTask(st), Abs(Apply(s, FinishTask(st)).sched))
  {
    hide Coherent, SlotsConserved, AcquiringOk, MutuallyExclusive, WorkersCounted, SomeoneAwake, PacketsConserved, Take, Finish, AbstractTake, AbstractFinish, MayTake, Abs;
    EventDefined(s, FinishTask(st));
    if st != STATELESS {
      FinishRefines(s.sched, st);
    }
  }

  lemma RestEventSimulates(s: System, e: Event)
    requires Inv(s) && Enabled(s, e) && (e.Wait? || e.GiveUp?)
    ensures AbstractEvent(s.sched.config, Abs(s.sched), e, Abs(Apply(s, e).sched))
  {
    hide Coherent, SlotsConserved, AcquiringOk, MutuallyExclusive, WorkersCounted, SomeoneAwake, PacketsConserved, Take, Finish, AbstractTake, AbstractFinish, MayTake, Abs;
    EventDefined(s, e);
    WaitRefines(s.sched);
  }

  lemma OtherEventSimulates(s: System, e: Event)
    requires Inv(s) && Enabled(s, e)
    requires !e.PushFilled? && !e.DropOldest? && !e.Poll? && !e.TakeTask? && !e.FinishTask?
    ensures Apply(s, e).sched == s.sched
  {
    hide Inv;
    EventDefined(s, e);
  }

  /** Each event of any thread is a step of the abstract machine, or changes nothing it knows; and
      a worker gives up or waits only when nothing may be taken. */
  lemma EventSimulates(s: System, e: Event)
    requires Inv(s) && Enabled(s, e)
    ensures AbstractEvent(s.sched.config, Abs(s.sched), e, Abs(Apply(s, e).sched))
  {
    hide Inv, Enabled, Apply, AbstractTake, AbstractFinish, AbstractPush, MayPop, MayTake, Abs;
    if e.PushFilled? || e.DropOldest? || e.Poll? {
      ChannelEventSimulates(s, e);
    } else if e.TakeTask? {
      TakeEventSimulates(s);
    } else if e.FinishTask? {
      FinishEventSimulates(s, e.state);
    } else if e.Wait? || e.GiveUp? {
      RestEventSimulates(s, e);
    } else {
      OtherEventSimulates(s, e);
    }
  }

  // ---------- every run ----------

  /** What the abstract machine sees of a run. */
  ghost function Trace(s: System, events: seq<Event>): (t: seq<Abstract>)
    requires Inv(s) && IsRun(s, events)
    ensures |t| == |events| + 1
    decreases |events|
  {
    if events == [] then [Abs(s.sched)] else
      StepKeeps(s, events[0]);
      [Abs(s.sched)] + Trace(Apply(s, events[0]), events[1..])
  }

  /** `trace` is a run of the abstract machine with these events. */
  ghost predicate AbstractRun(config: seq<ChannelConfig>, trace: seq<Abstract>, events: seq<Event>) {
    && |trace| == |events| + 1
    && forall i :: 0 <= i < |events| ==> AbstractEvent(config, trace[i], events[i], trace[i + 1])
  }

  /** The simulation: every run of the scheduler is a run of the abstract machine. */
  lemma {:induction false} RunSimulates(s: System, events: seq<Event>)
    requires Inv(s) && IsRun(s, events)
    ensures Trace(s, events)[0] == Abs(s.sched)
    ensures AbstractRun(s.sched.config, Trace(s, events), events)
    decreases |events|
  {
    hide Inv, Enabled, Apply, Abs, AbstractEvent;
    if events == [] {
      assert Trace(s, events) == [Abs(s.sched)];
    } else {
      StepKeeps(s, events[0]);
      StepConfig(s, events[0]);
      EventSimulates(s, events[0]);
      var s' := Apply(s, events[0]);
      RunSimulates(s', events[1..]);
      var t, t' := Trace(s, events), Trace(s', events[1..]);
      forall i | 0 <= i < |events| ensures AbstractEvent(s.sched.config, t[i], events[i], t[i + 1]) {
        if i > 0 {
          assert t[i] == t'[i - 1] && t[i + 1] == t'[i] && events[i] == events[1..][i - 1];
        }
      }
    }
  }

  lemma InitialAbstract(config: seq<ChannelConfig>)
    ensures Abs(InitialSched(config)) == Abstract(multiset{}, {})
  {
    NothingQueued(|config|);
  }

  /** From the registration of the channels on: an abstract run that starts with an empty bag and no
      busy state. */
  lemma RunsFromStartSimulate(config: seq<ChannelConfig>, workerCount: nat, events: seq<Event>)
    requires workerCount > 0 && Inv(Initial(config, workerCount)) && IsRun(Initial(config, workerCount), events)
    ensures Trace(Initial(config, workerCount), events)[0] == Abstract(multiset{}, {})
    ensures AbstractRun(config, Trace(Initial(config, workerCount), events), events)
  {
    hide Inv, Abs, InitialSched, AbstractRun;
    InitialAbstract(config);
    RunSimulates(Initial(config, workerCount), events);
    assert InitialSched(config).config == config by { EmptyConfig(config); }
  }

  lemma EmptyConfig(config: seq<ChannelConfig>)
    ensures InitialSched(config).config == config
  {
  }

  // ---------- one worker ----------

  /** An event after which the same packets are queued, unless a worker takes one. */
  predicate Quiet(e: Event) {
    !e.PushFilled? && !e.DropOldest? && !e.Poll?
  }

  /** The tasks taken in a run, in order. */
  ghost function TakenIn(s: System, events: seq<Event>): seq<Task>
    requires Inv(s) && IsRun(s, events)
    decreases |events|
  {
    if events == [] then [] else
      StepKeeps(s, events[0]);
      TakenBy(s, events[0]) + TakenIn(Apply(s, events[0]), events[1..])
  }

  ghost function TakenBy(s: System, e: Event): seq<Task>
    requires Inv(s) && Enabled(s, e)
  {
    if e.TakeTask? then [Take(s.sched).1] else []
  }

  ghost predicate Executes(s: System, st: StateId) {
    st != STATELESS && Executing(st) in s.workers
  }

  /** The scheduler as it is once the callback that runs now has finished. */
  ghost function Finished(s: System): Sched
    requires Inv(s)
  {
    if exists st :: Executes(s, st) then
      var st :| Executes(s, st);
      EventDefined(s, FinishTask(st));
      Finish(s.sched, st)
    else s.sched
  }

  lemma OnlyOneExecutes(s: System, st: StateId)
    requires Inv(s) && s.workerCount == 1 && Executes(s, st)
    ensures forall x :: Executes(s, x) ==> x == st
    ensures EventEnabled(s, st) && Finished(s) == Finish(s.sched, st)
  {
    hide Coherent, SlotsConserved, AcquiringOk, MutuallyExclusive, SomeoneAwake, PacketsConserved, Finish;
    EventDefined(s, FinishTask(st));
    forall x | Executes(s, x) ensures x == st {
      if x != st {
        AnotherOne(s.workers, Executing(x), Executing(st));
        CountAtMostSize(s.workers, Executing(st));
      }
    }
  }

  ghost predicate EventEnabled(s: System, st: StateId) {
    Coherent(s.sched) && st in s.sched.queues && !s.sched.queues[st].enabled
  }

  /** With one worker, everything is enabled once its callback has finished. */
  lemma FinishedIsEnabled(s: System)
    requires Inv(s) && s.workerCount == 1
    ensures Coherent(Finished(s)) && AllEnabled(Finished(s))
    ensures Finished(s).queued == s.sched.queued && Finished(s).config == s.sched.config
  {
    hide Coherent, SlotsConserved, AcquiringOk, SomeoneAwake, PacketsConserved, Finish, WorkersCounted;
    if st :| Executes(s, st) {
      OnlyOneExecutes(s, st);
      FinishEffect(s.sched, st);
      var f := Finish(s.sched, st);
      forall x | x in f.queues ensures f.queues[x].enabled {
        assert x in f.queues.Keys;
        assert x != st && x != STATELESS ==> !Executes(s, x);
      }
    } else {
      forall x | x in s.sched.queues ensures s.sched.queues[x].enabled {
        assert x != STATELESS ==> !Executes(s, x);
      }
    }
  }

  /** What one worker has still to do. */
  ghost function Remaining(s: System): seq<Task>
    requires Inv(s) && s.workerCount == 1
  {
    FinishedIsEnabled(s);
    Drain(Finished(s))
  }

  lemma SameRemaining(s: System, s': System)
    requires Inv(s) && Inv(s') && s.workerCount == 1 && s'.workerCount == 1
    requires s'.sched == s.sched && forall st :: Executes(s', st) <==> Executes(s, st)
    ensures Remaining(s') == Remaining(s)
  {
    hide Inv, Executes;
    if st :| Executes(s, st) {
      OnlyOneExecutes(s, st);
      OnlyOneExecutes(s', st);
    }
  }

  /** The only worker is elsewhere. */
  lemma NobodyExecutes(s: System, w: Worker)
    requires Inv(s) && s.workerCount == 1 && w in s.workers && (!w.Executing? || w.state == STATELESS)
    ensures forall st :: !Executes(s, st)
    ensures Finished(s) == s.sched
  {
    hide Coherent, SlotsConserved, AcquiringOk, MutuallyExclusive, SomeoneAwake, PacketsConserved;
    forall st ensures !Executes(s, st) {
      if Executes(s, st) {
        AnotherOne(s.workers, Executing(st), w);
        CountAtMostSize(s.workers, w);
      }
    }
  }

  lemma TakeFinished(s: System)
    requires Inv(s) && Enabled(s, TakeTask) && s.workerCount == 1
    ensures Coherent(s.sched) && AllEnabled(s.sched) && s.sched.ready != []
    ensures Finished(s) == s.sched
    ensures Inv(TakeNext(s)) && TakeNext(s).workerCount == 1
    ensures Finished(TakeNext(s)) == Turn(s.sched).0
  {
    hide Coherent, SlotsConserved, AcquiringOk, MutuallyExclusive, WorkersCounted, SomeoneAwake, PacketsConserved, Take, Finish, Move, Finished;
    NobodyExecutes(s, Checked);
    FinishedIsEnabled(s);
    TakeKeeps(s);
    TurnEffect(s.sched);
    var t := Take(s.sched).1;
    MoveCounts(s.workers, Checked, Executing(t.state));
    if t.state == STATELESS {
      NobodyExecutes(TakeNext(s), Executing(t.state));
    } else {
      OnlyOneExecutes(TakeNext(s), t.state);
    }
  }

  lemma TakeRemaining(s: System)
    requires Inv(s) && Enabled(s, TakeTask) && s.workerCount == 1
    ensures Inv(TakeNext(s)) && TakeNext(s).workerCount == 1 && s.sched.ready != []
    ensures Remaining(s) == [Take(s.sched).1] + Remaining(TakeNext(s))
  {
    hide Inv, Take, TakeNext, Finish, Finished;
    TakeFinished(s);
  }

  lemma FinishRemaining(s: System, st: StateId)
    requires Inv(s) && Enabled(s, FinishTask(st)) && s.workerCount == 1
    ensures st != STATELESS ==> st in s.sched.queues && !s.sched.queues[st].enabled
    ensures Inv(FinishStep(s, st)) && FinishStep(s, st).workerCount == 1
    ensures Remaining(s) == Remaining(FinishStep(s, st))
  {
    hide Coherent, SlotsConserved, AcquiringOk, MutuallyExclusive, WorkersCounted, SomeoneAwake, PacketsConserved, Take, Finish, Move, Finished;
    FinishKeeps(s, st);
    MoveCounts(s.workers, Executing(st), AtTop);
    NobodyExecutes(FinishStep(s, st), AtTop);
    if st == STATELESS {
      NobodyExecutes(s, Executing(st));
    } else {
      OnlyOneExecutes(s, st);
    }
  }

  lemma ControlEventExecutes(s: System, e: Event)
    requires Inv(s) && Enabled(s, e)
    requires e.Check? || e.Exit? || e.Wait? || e.WakeUp? || e.GiveUp?
    ensures Apply(s, e).workerCount == s.workerCount
    ensures forall st :: Executes(Apply(s, e), st) <==> Executes(s, st)
  {
    hide Inv, Move;
    match e
    case Check => MoveCounts(s.workers, AtTop, Checked);
    case Exit => MoveCounts(s.workers, AtTop, Exited);
    case Wait => MoveCounts(s.workers, Checked, Blocked);
    case WakeUp => MoveCounts(s.workers, Blocked, Checked);
    case GiveUp => MoveCounts(s.workers, Checked, AtTop);
  }

  lemma PhaseEventExecutes(s: System, e: Event)
    requires Inv(s) && Enabled(s, e)
    requires e.Tick? || e.StartWorkers? || e.RequestStop? || e.NotifyAll? || e.JoinWorkers?
    ensures Apply(s, e).workerCount == s.workerCount
    ensures forall st :: Executes(Apply(s, e), st) <==> Executes(s, st)
  {
    hide Coherent, SlotsConserved, AcquiringOk, MutuallyExclusive, SomeoneAwake, PacketsConserved;
    if e.JoinWorkers? {
      forall st ensures !Executes(s, st) {
        OnlyOnes(s.workers, Exited, Executing(st));
      }
    }
  }

  lemma SlotEventExecutes(s: System, e: Event)
    requires Inv(s) && Enabled(s, e)
    requires e.AcquireFirst? || e.ReleaseDropped? || e.AcquireAgain? || e.ReleaseProcessed?
    ensures Apply(s, e).workerCount == s.workerCount
    ensures forall st :: Executes(Apply(s, e), st) <==> Executes(s, st)
  {
    hide Inv, Enabled, Apply;
    SlotEventMoves(s, e);
  }

  lemma OtherEventExecutes(s: System, e: Event)
    requires Inv(s) && Enabled(s, e) && Quiet(e) && !e.TakeTask? && !e.FinishTask?
    ensures Apply(s, e).workerCount == s.workerCount
    ensures forall st :: Executes(Apply(s, e), st) <==> Executes(s, st)
  {
    hide Inv, Enabled, Apply, Executes;
    if e.Check? || e.Exit? || e.Wait? || e.WakeUp? || e.GiveUp? {
      ControlEventExecutes(s, e);
    } else if e.AcquireFirst? || e.ReleaseDropped? || e.AcquireAgain? || e.ReleaseProcessed? {
      SlotEventExecutes(s, e);
    } else {
      PhaseEventExecutes(s, e);
    }
  }

  lemma StepRemaining(s: System, e: Event)
    requires Inv(s) && Enabled(s, e) && Quiet(e) && s.workerCount == 1
    ensures Inv(Apply(s, e)) && Apply(s, e).workerCount == 1
    ensures Remaining(s) == TakenBy(s, e) + Remaining(Apply(s, e))
  {
    hide Inv, Enabled, Take, TakeNext, FinishStep, Executes, Remaining;
    StepKeeps(s, e);
    if e.TakeTask? {
      TakeRemaining(s);
    } else if e.FinishTask? {
      FinishRemaining(s, e.state);
    } else {
      OtherEventSimulates(s, e);
      OtherEventExecutes(s, e);
      SameRemaining(s, Apply(s, e));
    }
  }

  lemma {:induction false} RunRemaining(s: System, events: seq<Event>)
    requires Inv(s) && IsRun(s, events) && s.workerCount == 1
    requires forall i :: 0 <= i < |events| ==> Quiet(events[i])
    ensures Inv(After(s, events)) && After(s, events).workerCount == 1
    ensures Remaining(s) == TakenIn(s, events) + Remaining(After(s, events))
    decreases |events|
  {
    hide Inv, Enabled, Apply, Remaining, TakenBy;
    if events == [] {
      assert [] + Remaining(s) == Remaining(s);
    } else {
      StepKeeps(s, events[0]);
      StepRemaining(s, events[0]);
      var s' := Apply(s, events[0]);
      RunRemaining(s', events[1..]);
      var x, y, z := TakenBy(s, events[0]), TakenIn(s', events[1..]), Remaining(After(s', events[1..]));
      assert x + (y + z) == (x + y) + z;
    }
  }

  /** In any run of a single worker without pushes, drops and polls, whatever else happens, the
      tasks taken are the first of those that draining the heaps would take, so their packets come in
      timestamp order and were queued at the start; and once nothing is ready and no callback runs
      they are exactly the packets of the scheduled channels. */
  lemma OneWorkerDrains(config: seq<ChannelConfig>, s: System, events: seq<Event>)
    requires Reachable(config, 1, s) && IsRun(s, events)
    requires forall i :: 0 <= i < |events| ==> Quiet(events[i])
    ensures var taken := TakenIn(s, events);
      && (forall i, j :: 0 <= i <= j < |taken| ==> taken[i].packet.timestamp <= taken[j].packet.timestamp)
      && taken <= Remaining(s)
      && |s.sched.queued| == |config|
    ensures Settled(After(s, events)) ==>
      forall c: ChannelId, p: Packet :: Entries(TakenIn(s, events))[(c, p)] ==
        if c < |config| && config[c].scheduled then Count(s.sched.queued[c], p) else 0
  {
    hide Inv, Enabled, Apply;
    RunRemaining(s, events);
    FinishedIsEnabled(s);
    var d, taken := Finished(s), TakenIn(s, events);
    QueuedMatch(s);
    forall i, j | 0 <= i <= j < |taken| ensures taken[i].packet.timestamp <= taken[j].packet.timestamp {
      DrainIsSorted(d, i, j);
      assert taken[i] == Remaining(s)[i] && taken[j] == Remaining(s)[j];
    }
    if Settled(After(s, events)) {
      SettledIsDrained(After(s, events));
      assert taken == Drain(d);
      forall c: ChannelId, p: Packet
        ensures Entries(taken)[(c, p)] == if c < |config| && config[c].scheduled then Count(s.sched.queued[c], p) else 0
      {
        DrainTakesAll(d, c, p);
      }
    }
  }

  lemma QueuedMatch(s: System)
    requires Inv(s)
    ensures |s.sched.queued| == |s.sched.config|
  {
  }

  /** Nothing is ready and no callback of a monitor object runs. */
  ghost predicate Settled(s: System) {
    s.sched.ready == [] && forall st :: !Executes(s, st)
  }

  lemma SettledIsDrained(s: System)
    requires Inv(s) && s.workerCount == 1 && Settled(s)
    ensures Remaining(s) == []
  {
    hide Inv;
  }
}
