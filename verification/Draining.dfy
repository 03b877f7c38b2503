/** Running workers without pushes come to rest. */
module Draining {
  import opened Heaps
  import opened Scheduling
  import opened Workers
  import opened Refinement
  import opened Runs
  import opened Safety
  import opened Stopping
  import opened Simulation

  /** A step a worker makes of itself. */
  predicate OwnStep(e: Event) {
    WorkerEvent(e) && !e.WakeUp?
  }

  /** The most steps the workers can make before they rest: three for a queued packet, and those to
      the end of the turn each of them is in. */
  ghost function Effort(s: System): nat {
    3 * |Bag(s.sched.queued)| + 3 * BusyWorkers(s.workers) + 2 * s.workers[AtTop] + s.workers[Checked]
  }

  lemma MoveEffort(s: System, s': System, from: Worker, to: Worker)
    requires from in s.workers && from != to && s'.workers == Move(s.workers, from, to)
    ensures Effort(s') - 3 * |Bag(s'.sched.queued)| == Effort(s) - 3 * |Bag(s.sched.queued)| - Turn(from) + Turn(to)
  {
    hide Move, BusyWorkers, Bag;
    MoveCounts(s.workers, from, to);
    BusyCounts(s.workers);
    BusyCounts(s'.workers);
  }

  function Turn(w: Worker): nat {
    match w
    case Executing(_) => 3
    case AtTop => 2
    case Checked => 1
    case _ => 0
  }

  lemma TakeEffort(s: System)
    requires Inv(s) && s.sched.ready != [] && Checked in s.workers
    ensures Effort(TakeNext(s)) < Effort(s)
  {
    hide Coherent, SlotsConserved, AcquiringOk, MutuallyExclusive, WorkersCounted, SomeoneAwake, PacketsConserved, Take, Move, Effort;
    TakeAbs(s.sched);
    TakeRefines(s.sched);
    var t := Take(s.sched).1;
    assert |Bag(TakeNext(s).sched.queued)| == |Bag(s.sched.queued)| - 1;
    MoveEffort(s, TakeNext(s), Checked, Executing(t.state));
  }

  lemma FinishEffort(s: System, st: StateId)
    requires Inv(s) && Executing(st) in s.workers
    requires st != STATELESS ==> st in s.sched.queues && !s.sched.queues[st].enabled
    ensures Effort(FinishStep(s, st)) < Effort(s)
  {
    hide Coherent, SlotsConserved, AcquiringOk, MutuallyExclusive, WorkersCounted, SomeoneAwake, PacketsConserved, Finish, Move, Effort;
    if st != STATELESS {
      FinishEffect(s.sched, st);
    }
    MoveEffort(s, FinishStep(s, st), Executing(st), AtTop);
  }

  /** While running, every step of a worker but a spurious wake-up lowers the effort. */
  lemma StepLowersEffort(s: System, e: Event)
    requires Inv(s) && Enabled(s, e) && s.phase.Running? && OwnStep(e)
    ensures Effort(Apply(s, e)) < Effort(s) && Apply(s, e).phase == s.phase
  {
    hide Coherent, SlotsConserved, AcquiringOk, MutuallyExclusive, WorkersCounted, SomeoneAwake, PacketsConserved, Take, Finish, Move, Effort;
    EventDefined(s, e);
    match e
    case Check => MoveEffort(s, Apply(s, e), AtTop, Checked);
    case Wait => MoveEffort(s, Apply(s, e), Checked, Blocked);
    case TakeTask => TakeEffort(s);
    case FinishTask(st) => FinishEffort(s, st);
  }

  /** As long as something is ready or a callback runs, some worker can go on without being woken. */
  lemma SomeoneGoesOn(s: System) returns (e: Event)
    requires Inv(s) && s.phase.Running? && !Settled(s)
    ensures Enabled(s, e) && OwnStep(e)
  {
    hide Coherent, SlotsConserved, AcquiringOk, MutuallyExclusive, PacketsConserved;
    if st :| Executes(s, st) {
      e := FinishTask(st);
    } else {
      OtherThan(s.workers, Blocked);
      var w :| w in s.workers && w != Blocked;
      e := match w
        case AtTop => Check
        case Checked => TakeTask
        case Executing(st) => FinishTask(st)
        case _ => Check;
    }
  }

  /** From every running state, steps of the workers alone lead to rest, no more of them than the
      effort. */
  lemma {:induction false} WorkersSettle(s: System) returns (events: seq<Event>)
    requires Inv(s) && s.phase.Running?
    ensures IsRun(s, events) && Settled(After(s, events))
    ensures |events| <= Effort(s) && forall i :: 0 <= i < |events| ==> OwnStep(events[i])
    decreases Effort(s)
  {
    hide Inv, Enabled, Apply, Effort, Settled, OwnStep;
    if Settled(s) {
      events := [];
    } else {
      var e := SomeoneGoesOn(s);
      StepKeeps(s, e);
      StepLowersEffort(s, e);
      var rest := WorkersSettle(Apply(s, e));
      events := [e] + rest;
      assert events[1..] == rest;
    }
  }

  /** An event that neither pushes nor pops nor begins to stop. */
  predicate Undisturbed(e: Event) {
    Quiet(e) && !e.RequestStop?
  }

  function OwnSteps(events: seq<Event>): nat {
    if events == [] then 0 else (if OwnStep(events[0]) then 1 else 0) + OwnSteps(events[1..])
  }

  function WakeUps(events: seq<Event>): nat {
    if events == [] then 0 else (if events[0].WakeUp? then 1 else 0) + WakeUps(events[1..])
  }

  lemma OtherEffort(s: System, e: Event)
    requires Inv(s) && Enabled(s, e) && s.phase.Running? && Undisturbed(e) && !OwnStep(e)
    ensures Apply(s, e).phase == s.phase
    ensures Effort(Apply(s, e)) == Effort(s) + if e.WakeUp? then 1 else 0
  {
    hide Coherent, SlotsConserved, AcquiringOk, MutuallyExclusive, WorkersCounted, SomeoneAwake, PacketsConserved, Effort, Move;
    EventDefined(s, e);
    if e.WakeUp? {
      MoveEffort(s, Apply(s, e), Blocked, Checked);
    } else {
      SameEffort(s, Apply(s, e));
    }
  }

  lemma SameEffort(s: System, s': System)
    requires s'.workers == s.workers && s'.sched.queued == s.sched.queued
    ensures Effort(s') == Effort(s)
  {
  }

  /** In any undisturbed run, the workers make no more steps than their effort, and one more for
      each spurious wake-up. */
  lemma {:induction false} StepsBeforeRest(s: System, events: seq<Event>)
    requires Inv(s) && s.phase.Running? && IsRun(s, events)
    requires forall i :: 0 <= i < |events| ==> Undisturbed(events[i])
    ensures OwnSteps(events) + Effort(After(s, events)) <= Effort(s) + WakeUps(events)
    decreases |events|
  {
    hide Inv, Enabled, Apply, Effort, OwnStep, Undisturbed;
    if events == [] {
    } else {
      var e := events[0];
      StepKeeps(s, e);
      OwnIsNoWakeUp(e);
      if OwnStep(e) {
        StepLowersEffort(s, e);
      } else {
        OtherEffort(s, e);
      }
      StepsBeforeRest(Apply(s, e), events[1..]);
    }
  }

  lemma OwnIsNoWakeUp(e: Event)
    ensures OwnStep(e) ==> !e.WakeUp?
  {
  }

  /** One worker that runs undisturbed ends, having taken exactly the packets that were queued in
      scheduled channels, in timestamp order. */
  lemma OneWorkerFinishes(config: seq<ChannelConfig>, s: System) returns (events: seq<Event>)
    requires Reachable(config, 1, s) && s.phase.Running?
    ensures IsRun(s, events) && Settled(After(s, events))
    ensures |events| <= 3 * |Bag(s.sched.queued)| + 3
    ensures |s.sched.queued| == |config|
    ensures forall i, j :: 0 <= i <= j < |TakenIn(s, events)| ==>
      TakenIn(s, events)[i].packet.timestamp <= TakenIn(s, events)[j].packet.timestamp
    ensures forall c: ChannelId, p: Packet ::
      Entries(TakenIn(s, events))[(c, p)] == (if c < |config| && config[c].scheduled then Count(s.sched.queued[c], p) else 0)
  {
    hide Inv, Apply, Enabled, Settled, Reachable;
    events := WorkersSettle(s);
    EffortOfOne(s);
    OneWorkerDrains(config, s, events);
  }

  lemma EffortOfOne(s: System)
    requires Inv(s) && s.workerCount == 1
    ensures Effort(s) <= 3 * |Bag(s.sched.queued)| + 3
  {
    hide Coherent, SlotsConserved, AcquiringOk, MutuallyExclusive, SomeoneAwake, PacketsConserved, BusyWorkers, Bag;
    BusyCounts(s.workers);
  }
}
