/** Stop: the flag is cleared under the lock, all workers are notified once, and then joined.

    A worker tests keep_running_ and goes to sleep in one locked region (the event Wait), so once
    the flag is cleared under the same lock nobody goes to sleep any more, and a single
    notify_all reaches everybody who ever will. */
module Stopping {
  import opened Scheduling
  import opened Channels
  import opened Workers
  import opened Runs
  import opened Safety

  ghost predicate StopCalled(s: System) {
    s.phase.FlagCleared? || s.phase.Joining?
  }

  /** Steps of the worker threads; WakeUp is a spurious return from waiting. */
  predicate WorkerEvent(e: Event) {
    e.Check? || e.Exit? || e.Wait? || e.WakeUp? || e.GiveUp? || e.TakeTask? || e.FinishTask?
  }

  function WorkerSteps(events: seq<Event>): nat {
    if events == [] then 0 else (if WorkerEvent(events[0]) then 1 else 0) + WorkerSteps(events[1..])
  }

  // ---------- how far the workers are from having exited ----------

  /** The workers in a callback. */
  function BusyWorkers(w: multiset<Worker>): nat {
    |w[Blocked := 0][Checked := 0][AtTop := 0][Exited := 0]|
  }

  function Rank(w: multiset<Worker>): nat {
    4 * w[Blocked] + 3 * w[Checked] + 2 * BusyWorkers(w) + w[AtTop]
  }

  lemma BusyCounts(w: multiset<Worker>)
    ensures BusyWorkers(w) + w[Blocked] + w[Checked] + w[AtTop] + w[Exited] == |w|
  {
    var w1 := w[Blocked := 0];
    var w2 := w1[Checked := 0];
    var w3 := w2[AtTop := 0];
    assert w == w1[Blocked := w[Blocked]];
    assert w1 == w2[Checked := w[Checked]];
    assert w2 == w3[AtTop := w[AtTop]];
    assert w3 == w3[Exited := 0][Exited := w[Exited]];
  }

  lemma RankBound(w: multiset<Worker>)
    ensures Rank(w) <= 4 * |w|
    ensures Rank(w) == 0 ==> w[Exited] == |w|
  {
    BusyCounts(w);
  }

  lemma MoveRank(w: multiset<Worker>, from: Worker, to: Worker)
    requires from in w && from != to
    ensures Rank(Move(w, from, to)) == Rank(w) - Height(from) + Height(to)
  {
    hide Move, BusyWorkers;
    MoveCounts(w, from, to);
    BusyCounts(w);
    BusyCounts(Move(w, from, to));
  }

  function Height(w: Worker): nat {
    match w
    case Blocked => 4
    case Checked => 3
    case Executing(_) => 2
    case AtTop => 1
    case Exited => 0
  }

  // ---------- every step of a worker brings Stop nearer ----------

  lemma WorkerLowersRank(s: System, e: Event)
    requires Inv(s) && Enabled(s, e) && StopCalled(s) && WorkerEvent(e)
    ensures Rank(Apply(s, e).workers) < Rank(s.workers) && Apply(s, e).phase == s.phase
  {
    hide Coherent, SlotsConserved, AcquiringOk, MutuallyExclusive, WorkersCounted, SomeoneAwake, PacketsConserved, Take, Finish, Move, Rank;
    match e
    case Exit => MoveRank(s.workers, AtTop, Exited);
    case WakeUp => MoveRank(s.workers, Blocked, Checked);
    case GiveUp => MoveRank(s.workers, Checked, AtTop);
    case TakeTask => MoveRank(s.workers, Checked, Executing(Take(s.sched).1.state));
    case FinishTask(st) => MoveRank(s.workers, Executing(st), AtTop);
  }

  /** A notification only helps. */
  lemma NotifyLowersRank(w: multiset<Worker>, notify: bool)
    ensures Rank(Notify(w, notify)) <= Rank(w)
  {
    if notify && Blocked in w {
      MoveRank(w, Blocked, Checked);
    }
  }

  lemma ChannelEventWorkers(s: System, e: Event)
    requires Inv(s) && Enabled(s, e)
    requires e.Tick? || e.AcquireFirst? || e.DropOldest? || e.ReleaseDropped? || e.AcquireAgain? || e.PushFilled? || e.Poll? || e.ReleaseProcessed?
    ensures Apply(s, e).phase == s.phase
    ensures Apply(s, e).workers == s.workers || Apply(s, e).workers == Notify(s.workers, true)
  {
    hide Coherent, SlotsConserved, MutuallyExclusive, WorkersCounted, SomeoneAwake, PacketsConserved, PushPacket, PopNext;
    EventDefined(s, e);
  }

  lemma NotifyAllLowersRank(s: System)
    requires Inv(s) && s.phase.FlagCleared?
    ensures Rank(Apply(s, NotifyAll).workers) <= Rank(s.workers)
  {
    hide Inv, BusyWorkers;
    var w := s.workers;
    var w' := w[Blocked := 0][Checked := w[Checked] + w[Blocked]];
    AllNotified(w);
    BusyCounts(w);
    BusyCounts(w');
  }

  /** From the call of Stop until it returns, each step of a worker lowers the rank, and no other
      event raises it. */
  lemma StopLowersRank(s: System, e: Event)
    requires Inv(s) && Enabled(s, e) && StopCalled(s)
    ensures Rank(Apply(s, e).workers) <= Rank(s.workers)
    ensures WorkerEvent(e) ==> Rank(Apply(s, e).workers) < Rank(s.workers)
    ensures if e.JoinWorkers? then Apply(s, e).phase.Stopped? else StopCalled(Apply(s, e))
  {
    hide Inv, Rank;
    if WorkerEvent(e) {
      WorkerLowersRank(s, e);
    } else if e.NotifyAll? {
      NotifyAllLowersRank(s);
    } else if e.JoinWorkers? {
      assert Rank(multiset{}) == 0 by { RankBound(multiset{}); }
    } else {
      ChannelEventWorkers(s, e);
      NotifyLowersRank(s.workers, true);
    }
  }

  /** However the threads interleave, the workers can make no more steps than their rank allows
      before the join. */
  lemma {:induction false} StepsBounded(s: System, events: seq<Event>)
    requires Inv(s) && StopCalled(s) && IsRun(s, events) && JoinWorkers !in events
    ensures WorkerSteps(events) + Rank(After(s, events).workers) <= Rank(s.workers)
    ensures StopCalled(After(s, events))
    decreases |events|
  {
    hide Inv, Enabled, Apply, Rank, StopCalled;
    if events == [] {
    } else {
      StepKeeps(s, events[0]);
      StopLowersRank(s, events[0]);
      StepsBounded(Apply(s, events[0]), events[1..]);
    }
  }

  /** Four steps for each worker, at most, separate the call of Stop from the join. */
  lemma StopIsBounded(config: seq<ChannelConfig>, workerCount: nat, s: System, events: seq<Event>)
    requires Reachable(config, workerCount, s) && StopCalled(s)
    requires IsRun(s, events) && JoinWorkers !in events
    ensures WorkerSteps(events) <= 4 * workerCount
  {
    hide Coherent, SlotsConserved, AcquiringOk, MutuallyExclusive, SomeoneAwake, PacketsConserved, Rank;
    StepsBounded(s, events);
    RankBound(s.workers);
  }

  // ---------- one notify_all is enough ----------

  lemma StaysUnblocked(s: System, e: Event)
    requires Inv(s) && Enabled(s, e) && !e.StartWorkers?
    requires s.phase.Joining? || s.phase.Stopped?
    ensures Apply(s, e).phase.Joining? || Apply(s, e).phase.Stopped?
  {
    hide Coherent, SlotsConserved, AcquiringOk, MutuallyExclusive, SomeoneAwake, PacketsConserved;
    EventDefined(s, e);
  }

  lemma NobodyBlocked(s: System)
    requires Inv(s) && (s.phase.Joining? || s.phase.Stopped?)
    ensures s.workers[Blocked] == 0
  {
    hide Coherent, SlotsConserved, AcquiringOk, MutuallyExclusive, SomeoneAwake, PacketsConserved;
    CountAtMostSize(s.workers, Blocked);
  }

  /** After the single notify_all of Stop no worker is blocked in any later state, until the next
      Start. */
  lemma {:induction false} OneNotifyAllIsEnough(s: System, events: seq<Event>)
    requires Inv(s) && (s.phase.Joining? || s.phase.Stopped?)
    requires IsRun(s, events) && StartWorkers !in events
    ensures Inv(After(s, events)) && After(s, events).workers[Blocked] == 0
    decreases |events|
  {
    hide Inv, Enabled, Apply;
    if events == [] {
      NobodyBlocked(s);
    } else {
      StepKeeps(s, events[0]);
      StaysUnblocked(s, events[0]);
      OneNotifyAllIsEnough(Apply(s, events[0]), events[1..]);
    }
  }

  // ---------- Stop returns ----------

  /** Whichever state Stop has reached, its own next step is possible, or that of a worker who
      need not be woken first. */
  lemma StopGoesOn(config: seq<ChannelConfig>, workerCount: nat, s: System)
    requires Reachable(config, workerCount, s) && StopCalled(s)
    ensures exists e :: Enabled(s, e) && (e.NotifyAll? || e.JoinWorkers? || (s.phase.Joining? && WorkerEvent(e) && !e.WakeUp?))
  {
    hide Inv;
    if s.phase.FlagCleared? {
      assert Enabled(s, NotifyAll);
    } else if s.workers[Exited] == |s.workers| {
      assert Enabled(s, JoinWorkers);
    } else {
      NobodyBlocked(s);
      var e := NextOf(s);
    }
  }

  lemma NextOf(s: System) returns (e: Event)
    requires s.phase.Joining? && s.workers[Exited] != |s.workers| && s.workers[Blocked] == 0
    ensures Enabled(s, e) && WorkerEvent(e) && !e.WakeUp?
  {
    OtherThan(s.workers, Exited);
    var w :| w in s.workers && w != Exited;
    assert w != Blocked;
    e := match w
      case AtTop => Exit
      case Checked => if s.sched.ready == [] then GiveUp else TakeTask
      case Executing(st) => FinishTask(st)
      case _ => Exit;
  }

  /** From any state after the call of Stop some run of the workers and Stop leads to its return;
      with StopIsBounded, every run in which somebody goes on does. */
  lemma {:induction false} StopReturns(s: System) returns (events: seq<Event>)
    requires Inv(s) && StopCalled(s)
    ensures IsRun(s, events) && After(s, events).phase.Stopped?
    ensures |events| <= Rank(s.workers) + if s.phase.FlagCleared? then 2 else 1
    decreases Rank(s.workers), s.phase.FlagCleared?
  {
    hide Inv, Rank;
    var e: Event;
    if s.phase.FlagCleared? {
      e := NotifyAll;
    } else if s.workers[Exited] == |s.workers| {
      e := JoinWorkers;
    } else {
      NobodyBlocked(s);
      e := NextOf(s);
    }
    StepKeeps(s, e);
    StopLowersRank(s, e);
    var s' := Apply(s, e);
    if e == JoinWorkers {
      events := [e];
      assert events[1..] == [];
    } else {
      var rest := StopReturns(s');
      events := [e] + rest;
      assert events[1..] == rest;
    }
  }
}
