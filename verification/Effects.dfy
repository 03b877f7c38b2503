/** What each event does, in terms of what it leaves: which packets are booked where, in whose
    hands each slot is, where the workers stand.  Nothing here names the functions of module Runs
    that compute it. */
module Effects {
  import opened Heaps
  import opened Scheduling
  import opened Channels
  import opened Workers
  import opened Refinement
  import opened Runs
  import opened Safety

  // ---------- packets and slots ----------

  /** Nothing is booked and no slot changes hands. */
  ghost predicate SameBooks(s: System, s': System) {
    && s'.sched.queued == s.sched.queued && s'.free == s.free && s'.filling == s.filling
    && s'.processing == s.processing && s'.acquiring == s.acquiring
    && s'.pushed == s.pushed && s'.retrieved == s.retrieved && s'.dropped == s.dropped
  }

  /** The earliest packet of channel `c` leaves the queue. */
  ghost predicate Leaves(s: System, s': System, c: ChannelId, p: Packet) {
    && c < |s.sched.queued| && p in s.sched.queued[c]
    && (forall r <- s.sched.queued[c] :: p.timestamp <= r.timestamp)
    && Bag(s.sched.queued) == Bag(s'.sched.queued) + multiset{(c, p)}
  }

  /** `p` is handed to a processor: booked as retrieved, its slot in processing hands. */
  ghost predicate Retrieved(s: System, s': System, c: ChannelId, p: Packet) {
    && Leaves(s, s', c, p)
    && s'.retrieved == s.retrieved + multiset{(c, p)}
    && s'.processing == s.processing + multiset{(c, p.slot)}
    && s'.free == s.free && s'.filling == s.filling && s'.acquiring == s.acquiring
    && s'.pushed == s.pushed && s'.dropped == s.dropped
  }

  /** `p` is dropped by a thread in Acquire, which holds its slot. */
  ghost predicate Dropped(s: System, s': System, c: ChannelId, p: Packet) {
    && Leaves(s, s', c, p)
    && s'.dropped == s.dropped + multiset{(c, p)}
    && s'.acquiring + multiset{WantsDrop(c)} == s.acquiring + multiset{HoldsDropped(c, p.slot)}
    && s'.free == s.free && s'.filling == s.filling && s'.processing == s.processing
    && s'.pushed == s.pushed && s'.retrieved == s.retrieved
  }

  /** The thread that acquires has the slot that was on top of the free stack. */
  ghost predicate Acquires(s: System, s': System, c: ChannelId, k: Slot) {
    && c < |s.free| && c < |s'.free| && s.free[c] == s'.free[c] + [k]
    && s'.free == s.free[c := s'.free[c]]
    && s'.filling == s.filling + multiset{(c, k)}
    && s'.sched == s.sched && s'.processing == s.processing
    && s'.pushed == s.pushed && s'.retrieved == s.retrieved && s'.dropped == s.dropped
  }

  /** Slot `k` is put on top of the free stack. */
  ghost predicate Frees(s: System, s': System, c: ChannelId, k: Slot) {
    && c < |s.free| && s'.free == s.free[c := s.free[c] + [k]]
    && s'.filling == s.filling && s'.sched == s.sched
    && s'.pushed == s.pushed && s'.retrieved == s.retrieved && s'.dropped == s.dropped
  }

  ghost predicate Booked(s: System, e: Event, s': System) {
    match e
    case TakeTask => exists c: ChannelId, p: Packet :: Retrieved(s, s', c, p)
    case Poll(c) =>
      c < |s.sched.queued| && if s.sched.queued[c] == [] then s' == s else exists p: Packet :: Retrieved(s, s', c, p)
    case DropOldest(c) =>
      c < |s.sched.queued| &&
      if s.sched.queued[c] == [] then
        s'.acquiring + multiset{WantsDrop(c)} == s.acquiring && s' == s.(acquiring := s'.acquiring)
      else exists p: Packet :: Dropped(s, s', c, p)
    case PushFilled(c, p) =>
      && Bag(s'.sched.queued) == Bag(s.sched.queued) + multiset{(c, p)}
      && s'.pushed == s.pushed + multiset{(c, p)}
      && s'.filling + multiset{(c, p.slot)} == s.filling
      && s'.free == s.free && s'.processing == s.processing && s'.acquiring == s.acquiring
      && s'.retrieved == s.retrieved && s'.dropped == s.dropped
    case AcquireFirst(c) =>
      c < |s.free| &&
      if s.free[c] == [] then
        s' == s.(acquiring := s'.acquiring) && s'.acquiring == s.acquiring + multiset{WantsDrop(c)}
      else s'.acquiring == s.acquiring && exists k: Slot :: Acquires(s, s', c, k)
    case AcquireAgain(c) =>
      && c < |s.free|
      && s'.acquiring + multiset{Retries(c)} == s.acquiring
      && if s.free[c] == [] then s' == s.(acquiring := s'.acquiring) else exists k: Slot :: Acquires(s, s', c, k)
    case ReleaseDropped(c, k) =>
      && Frees(s, s', c, k) && s'.processing == s.processing
      && s'.acquiring + multiset{HoldsDropped(c, k)} == s.acquiring + multiset{Retries(c)}
    case ReleaseProcessed(c, k) =>
      && Frees(s, s', c, k) && s'.acquiring == s.acquiring
      && s'.processing + multiset{(c, k)} == s.processing
    case _ => SameBooks(s, s')
  }

  /** The front of a queue, seen in the bag. */
  lemma FrontLeaves(s: System, s': System, c: ChannelId)
    requires c < |s.sched.queued| && QueueOk(s.sched.queued[c]) && s.sched.queued[c] != []
    requires s'.sched.queued == s.sched.queued[c := Dequeue(s.sched.queued[c])]
    ensures Leaves(s, s', c, s.sched.queued[c][0])
  {
    hide QueueOk, Bag;
    var q := s.sched.queued[c];
    BagLoses(s.sched.queued, c, Dequeue(q), q[0]);
    assert Bag(s.sched.queued) == Bag(s'.sched.queued) + multiset{(c, q[0])};
  }

  lemma PopLeaves(s: System, s': System, c: ChannelId)
    requires Coherent(s.sched) && c < |s.sched.config| && c < |s.sched.queued| && s.sched.queued[c] != []
    requires s'.sched == PopNext(s.sched, c).0
    ensures PopNext(s.sched, c).1 == s.sched.queued[c][0]
    ensures Leaves(s, s', c, s.sched.queued[c][0])
  {
    hide Coherent, PopNext, Leaves, QueueOk, Dequeue;
    QueueOfCoherent(s.sched, c);
    PopNextCoherent(s.sched, c);
    FrontLeaves(s, s', c);
  }

  lemma TakeBooked(s: System)
    requires Coherent(s.sched) && s.sched.ready != []
    ensures Booked(s, TakeTask, TakeNext(s))
  {
    hide Coherent, Take, Leaves, QueueOk, Dequeue;
    TakeEffect(s.sched);
    TakenIsFront(s.sched);
    var t := Take(s.sched).1;
    QueueOfCoherent(s.sched, t.channel);
    FrontLeaves(s, TakeNext(s), t.channel);
    assert Retrieved(s, TakeNext(s), t.channel, t.packet);
  }

  lemma QueueOfCoherent(s: Sched, c: ChannelId)
    requires Coherent(s) && c < |s.queued|
    ensures QueueOk(s.queued[c])
  {
  }

  lemma PollBooked(s: System, c: ChannelId)
    requires Coherent(s.sched) && c < |s.sched.config| && c < |s.sched.queued|
    ensures Booked(s, Poll(c), PollStep(s, c))
  {
    hide Coherent, PopNext, Leaves;
    if s.sched.queued[c] != [] {
      PopLeaves(s, PollStep(s, c), c);
      var p := s.sched.queued[c][0];
      assert Retrieved(s, PollStep(s, c), c, p);
    }
  }

  lemma DropBooked(s: System, c: ChannelId)
    requires Coherent(s.sched) && c < |s.sched.config| && c < |s.sched.queued| && WantsDrop(c) in s.acquiring
    ensures Booked(s, DropOldest(c), DropOldestStep(s, c))
  {
    hide Coherent, PopNext, Leaves;
    if s.sched.queued[c] != [] {
      PopLeaves(s, DropOldestStep(s, c), c);
      var p := s.sched.queued[c][0];
      assert Dropped(s, DropOldestStep(s, c), c, p);
    }
  }

  lemma PushBooked(s: System, c: ChannelId, p: Packet)
    requires Coherent(s.sched) && c < |s.sched.config| && p.timestamp < MAX_TIME && (c, p.slot) in s.filling
    ensures Booked(s, PushFilled(c, p), PushStep(s, c, p))
  {
    hide Coherent, PushPacket, Bag;
    PushRefines(s.sched, c, p);
  }

  lemma TopTaken(s: System, s': System, c: ChannelId)
    requires c < |s.free| && s.free[c] != []
    requires var n := |s.free[c]| - 1;
      s' == s.(free := s.free[c := s.free[c][..n]], filling := s.filling + multiset{(c, s.free[c][n])}, acquiring := s'.acquiring)
    ensures Acquires(s, s', c, s.free[c][|s.free[c]| - 1])
  {
    var n := |s.free[c]| - 1;
    assert s.free[c] == s.free[c][..n] + [s.free[c][n]];
  }

  lemma AcquireBooked(s: System, c: ChannelId)
    requires c < |s.free|
    ensures Booked(s, AcquireFirst(c), AcquireFirstStep(s, c))
  {
    hide Acquires, Retrieved, Dropped, Frees, SameBooks;
    if s.free[c] != [] {
      TopTaken(s, AcquireFirstStep(s, c), c);
    }
  }

  lemma AcquireAgainBooked(s: System, c: ChannelId)
    requires c < |s.free| && Retries(c) in s.acquiring
    ensures Booked(s, AcquireAgain(c), AcquireAgainStep(s, c))
  {
    hide Acquires, Retrieved, Dropped, Frees, SameBooks;
    if s.free[c] != [] {
      TopTaken(s, AcquireAgainStep(s, c), c);
    }
  }

  lemma ReleaseBooked(s: System, c: ChannelId, k: Slot)
    requires c < |s.free|
    ensures HoldsDropped(c, k) in s.acquiring ==> Booked(s, ReleaseDropped(c, k), ReleaseDroppedStep(s, c, k))
    ensures (c, k) in s.processing ==> Booked(s, ReleaseProcessed(c, k), ReleaseStep(s, c, k))
  {
  }

  lemma OtherBooked(s: System, e: Event)
    requires Inv(s) && Enabled(s, e)
    requires e.Tick? || e.Check? || e.Exit? || e.Wait? || e.WakeUp? || e.GiveUp? || e.FinishTask? || e.StartWorkers? || e.RequestStop? || e.NotifyAll? || e.JoinWorkers?
    ensures SameBooks(s, Apply(s, e))
  {
    hide Coherent, SlotsConserved, AcquiringOk, MutuallyExclusive, WorkersCounted, SomeoneAwake, PacketsConserved, Finish, Move;
    EventDefined(s, e);
    if e.FinishTask? && e.state != STATELESS {
      FinishEffect(s.sched, e.state);
    }
  }

  /** Each event books exactly what the code does: a task or a poll retrieves the earliest packet, a
      drop inside Acquire drops it, a push queues the packet that was filled, an acquired slot comes
      from the top of the free stack and a released one goes there; all other events book nothing. */
  lemma EventBooks(s: System, e: Event)
    requires Inv(s) && Enabled(s, e)
    ensures Booked(s, e, Apply(s, e))
  {
    hide Coherent, SlotsConserved, AcquiringOk, MutuallyExclusive, WorkersCounted, SomeoneAwake, PacketsConserved, Booked;
    hide TakeNext, PollStep, DropOldestStep, PushStep, AcquireFirstStep, AcquireAgainStep, ReleaseDroppedStep, ReleaseStep;
    EventDefined(s, e);
    assert |s.sched.queued| == |s.sched.config| by { QueuesFit(s); }
    match e
    case TakeTask => TakeBooked(s);
    case Poll(c) => PollBooked(s, c);
    case DropOldest(c) => DropBooked(s, c);
    case PushFilled(c, p) => PushBooked(s, c, p);
    case AcquireFirst(c) => AcquireBooked(s, c);
    case AcquireAgain(c) => AcquireAgainBooked(s, c);
    case ReleaseDropped(c, k) => ReleaseBooked(s, c, k);
    case ReleaseProcessed(c, k) => ReleaseBooked(s, c, k);
    case _ => OtherBooked(s, e); NothingBooked(s, e);
  }

  lemma NothingBooked(s: System, e: Event)
    requires Inv(s) && Enabled(s, e) && SameBooks(s, Apply(s, e))
    requires e.Tick? || e.Check? || e.Exit? || e.Wait? || e.WakeUp? || e.GiveUp? || e.FinishTask? || e.StartWorkers? || e.RequestStop? || e.NotifyAll? || e.JoinWorkers?
    ensures Booked(s, e, Apply(s, e))
  {
    hide Inv, Enabled, Apply;
  }

  lemma QueuesFit(s: System)
    requires Inv(s)
    ensures |s.sched.queued| == |s.sched.config|
  {
  }

  /** A task is the front of the queue of a scheduled channel whose state is enabled, no later than
      any packet of any such channel; the worker that checked executes for the channel's state. */
  lemma TaskTaken(s: System)
    requires Inv(s) && Enabled(s, TakeTask)
    ensures WellFormed(s.sched)
    ensures exists c: ChannelId, p: Packet ::
      && Eligible(s.sched, c, p) && Retrieved(s, Apply(s, TakeTask), c, p)
      && (forall d: ChannelId, r: Packet :: Eligible(s.sched, d, r) ==> p.timestamp <= r.timestamp)
      && Moves(s, Apply(s, TakeTask), Checked, Executing(s.sched.config[c].state))
  {
    hide SlotsConserved, AcquiringOk, MutuallyExclusive, WorkersCounted, SomeoneAwake, PacketsConserved, Take, Leaves, QueueOk, Dequeue, Move, Moves, OrderedUnder, StatesListed, ChannelsListed;
    TakeEffect(s.sched);
    TakenIsFront(s.sched);
    var t, s' := Take(s.sched).1, TakeNext(s);
    QueueOfCoherent(s.sched, t.channel);
    FrontLeaves(s, s', t.channel);
    MoveMoves(s, s', Checked, Executing(t.state));
    forall d: ChannelId, r: Packet | Eligible(s.sched, d, r) ensures t.packet.timestamp <= r.timestamp {
      EarliestFirst(s.sched, d, r);
    }
    assert Retrieved(s, s', t.channel, t.packet);
  }

  // ---------- whole runs ----------

  /** The packets pushed in a run. */
  function PushesIn(events: seq<Event>): multiset<Entry> {
    if events == [] then multiset{} else
      (if events[0].PushFilled? then multiset{(events[0].channel, events[0].packet)} else multiset{}) + PushesIn(events[1..])
  }

  function DropsIn(events: seq<Event>): nat {
    if events == [] then 0 else (if events[0].DropOldest? then 1 else 0) + DropsIn(events[1..])
  }

  function RetrievalsIn(events: seq<Event>): nat {
    if events == [] then 0 else (if events[0].TakeTask? || events[0].Poll? then 1 else 0) + RetrievalsIn(events[1..])
  }

  /** How many more packets the accounts hold. */
  ghost predicate Accounts(s: System, s': System, pushes: multiset<Entry>, drops: nat, retrievals: nat) {
    && s'.pushed == s.pushed + pushes
    && s.dropped <= s'.dropped && |s'.dropped| <= |s.dropped| + drops
    && s.retrieved <= s'.retrieved && |s'.retrieved| <= |s.retrieved| + retrievals
  }

  lemma RetrievedAccount(s: System, s': System, c: ChannelId, p: Packet)
    requires Retrieved(s, s', c, p)
    ensures Accounts(s, s', multiset{}, 0, 1)
  {
    hide Leaves;
  }

  lemma DroppedAccount(s: System, s': System, c: ChannelId, p: Packet)
    requires Dropped(s, s', c, p)
    ensures Accounts(s, s', multiset{}, 1, 0)
  {
    hide Leaves;
  }

  lemma SameAccount(s: System, s': System, pushes: multiset<Entry>)
    requires s'.pushed == s.pushed + pushes && s'.dropped == s.dropped && s'.retrieved == s.retrieved
    ensures Accounts(s, s', pushes, 0, 0)
  {
  }

  lemma MoreAccount(s: System, s': System, pushes: multiset<Entry>, drops: nat, retrievals: nat, d: nat, r: nat)
    requires Accounts(s, s', pushes, drops, retrievals) && drops <= d && retrievals <= r
    ensures Accounts(s, s', pushes, d, r)
  {
  }

  lemma SlotAccount(s: System, e: Event, s': System)
    requires Booked(s, e, s') && (e.AcquireFirst? || e.AcquireAgain? || e.ReleaseDropped? || e.ReleaseProcessed?)
    ensures Accounts(s, s', multiset{}, 0, 0)
  {
    hide Leaves, Retrieved, Dropped, SameBooks, Accounts;
    if e.AcquireFirst? || e.AcquireAgain? {
      if s.free[e.channel] != [] {
        var k: Slot :| Acquires(s, s', e.channel, k);
      }
    }
    SameAccount(s, s', multiset{});
  }

  lemma OtherAccount(s: System, e: Event, s': System)
    requires Booked(s, e, s') && !e.AcquireFirst? && !e.AcquireAgain? && !e.ReleaseDropped? && !e.ReleaseProcessed?
    requires !e.TakeTask? && !e.Poll? && !e.DropOldest? && !e.PushFilled?
    ensures Accounts(s, s', multiset{}, 0, 0)
  {
    hide Leaves, Bag, Retrieved, Dropped, Acquires, Frees, Accounts;
    SameAccount(s, s', multiset{});
  }

  lemma TakeAccount(s: System, e: Event, s': System)
    requires Booked(s, e, s') && (e.TakeTask? || e.Poll?)
    ensures Accounts(s, s', multiset{}, 0, 1)
  {
    hide Leaves, Bag, Retrieved, Dropped, Acquires, Frees, SameBooks, Accounts;
    if e.Poll? && s.sched.queued[e.channel] == [] {
      SameAccount(s, s', multiset{});
      MoreAccount(s, s', multiset{}, 0, 0, 0, 1);
    } else {
      var c: ChannelId, p: Packet :| Retrieved(s, s', c, p);
      RetrievedAccount(s, s', c, p);
    }
  }

  lemma DropAccount(s: System, e: Event, s': System)
    requires Booked(s, e, s') && e.DropOldest?
    ensures Accounts(s, s', multiset{}, 1, 0)
  {
    hide Leaves, Bag, Retrieved, Dropped, Acquires, Frees, SameBooks, Accounts;
    if s.sched.queued[e.channel] == [] {
      SameAccount(s, s', multiset{});
      MoreAccount(s, s', multiset{}, 0, 0, 1, 0);
    } else {
      var p: Packet :| Dropped(s, s', e.channel, p);
      DroppedAccount(s, s', e.channel, p);
    }
  }

  lemma PushAccount(s: System, e: Event, s': System)
    requires Booked(s, e, s') && e.PushFilled?
    ensures Accounts(s, s', multiset{(e.channel, e.packet)}, 0, 0)
  {
    hide Leaves, Bag, Retrieved, Dropped, Acquires, Frees, SameBooks, Accounts;
    SameAccount(s, s', multiset{(e.channel, e.packet)});
  }

  lemma AccountStep(s: System, e: Event, s': System)
    requires Booked(s, e, s')
    ensures Accounts(s, s', PushesIn([e]), DropsIn([e]), RetrievalsIn([e]))
  {
    hide Booked, Accounts, PushesIn, DropsIn, RetrievalsIn;
    OneEvent(e);
    match e
    case TakeTask => TakeAccount(s, e, s');
    case Poll(c) => TakeAccount(s, e, s');
    case DropOldest(c) => DropAccount(s, e, s');
    case PushFilled(c, p) => PushAccount(s, e, s');
    case AcquireFirst(_) => SlotAccount(s, e, s');
    case AcquireAgain(_) => SlotAccount(s, e, s');
    case ReleaseDropped(_, _) => SlotAccount(s, e, s');
    case ReleaseProcessed(_, _) => SlotAccount(s, e, s');
    case _ => OtherAccount(s, e, s');
  }

  lemma OneEvent(e: Event)
    ensures PushesIn([e]) == if e.PushFilled? then multiset{(e.channel, e.packet)} else multiset{}
    ensures DropsIn([e]) == if e.DropOldest? then 1 else 0
    ensures RetrievalsIn([e]) == if e.TakeTask? || e.Poll? then 1 else 0
  {
    assert [e][1..] == [];
  }

  /** Over any run: the packets booked as pushed are exactly those pushed; at most one is dropped for
      each drop an Acquire makes; and at most one is retrieved for each task taken or poll. */
  lemma {:induction false} AccountsOfRun(s: System, events: seq<Event>)
    requires Inv(s) && IsRun(s, events)
    ensures var r := After(s, events);
      && r.pushed == s.pushed + PushesIn(events)
      && s.dropped <= r.dropped && |r.dropped| <= |s.dropped| + DropsIn(events)
      && s.retrieved <= r.retrieved && |r.retrieved| <= |s.retrieved| + RetrievalsIn(events)
    decreases |events|
  {
    hide Inv, Enabled, Apply, Booked;
    if events == [] {
    } else {
      var e := events[0];
      StepKeeps(s, e);
      EventBooks(s, e);
      AccountStep(s, e, Apply(s, e));
      OneEvent(e);
      AccountsOfRun(Apply(s, e), events[1..]);
    }
  }

  // ---------- the workers ----------

  /** One worker goes from one point to another. */
  ghost predicate Moves(s: System, s': System, from: Worker, to: Worker) {
    from in s.workers && s'.workers + multiset{from} == s.workers + multiset{to}
  }

  /** Where the workers stand afterwards, and what else a step of a worker, of Start or of Stop
      changes; a push wakes one blocked worker if it notifies. */
  ghost predicate Placed(s: System, e: Event, s': System) {
    && s'.workerCount == s.workerCount
    && s'.now == (if e.Tick? then e.time else s.now)
    && match e
       case Check => Moves(s, s', AtTop, Checked) && s'.phase == s.phase && s'.sched == s.sched
       case Exit => Moves(s, s', AtTop, Exited) && s'.phase == s.phase && s'.sched == s.sched
       case Wait => Moves(s, s', Checked, Blocked) && s'.phase == s.phase && s'.sched == s.sched
       case WakeUp => Moves(s, s', Blocked, Checked) && s'.phase == s.phase && s'.sched == s.sched
       case GiveUp => Moves(s, s', Checked, AtTop) && s'.phase == s.phase && s'.sched == s.sched
       case TakeTask => (exists st :: Moves(s, s', Checked, Executing(st))) && s'.phase == s.phase
       case FinishTask(st) => Moves(s, s', Executing(st), AtTop) && s'.phase == s.phase
       case StartWorkers => s'.phase.Running? && s'.workers == multiset{}[AtTop := s.workerCount] && s'.sched == s.sched
       case RequestStop => s'.phase.FlagCleared? && s'.workers == s.workers && s'.sched == s.sched
       case NotifyAll =>
         && s'.phase.Joining? && s'.sched == s.sched && s'.workers[Blocked] == 0
         && s'.workers[Checked] == s.workers[Checked] + s.workers[Blocked]
         && forall w: Worker :: w != Blocked && w != Checked ==> s'.workers[w] == s.workers[w]
       case JoinWorkers => s'.phase.Stopped? && s'.workers == multiset{} && s'.sched == s.sched
       case PushFilled(c, p) =>
         && s'.phase == s.phase && WellFormed(s.sched) && c < |s.sched.config|
         && if Notifies(s.sched, c, p) && Blocked in s.workers then Moves(s, s', Blocked, Checked) else s'.workers == s.workers
       case _ => s'.phase == s.phase && s'.workers == s.workers
  }

  /** The packet is earlier than everything queued for an enabled state. */
  ghost predicate Notifies(s: Sched, c: ChannelId, p: Packet)
    requires WellFormed(s) && c < |s.config|
  {
    s.config[c].scheduled && s.queues[s.config[c].state].enabled && BeforeAll(s, s.config[c].state, p.timestamp)
  }

  lemma MoveMoves(s: System, s': System, from: Worker, to: Worker)
    requires from in s.workers && s'.workers == Move(s.workers, from, to)
    ensures Moves(s, s', from, to)
  {
  }

  lemma PushPlaced(s: System, c: ChannelId, p: Packet)
    requires Coherent(s.sched) && c < |s.sched.config| && p.timestamp < MAX_TIME
    ensures Placed(s, PushFilled(c, p), PushStep(s, c, p))
  {
    hide BeforeAll, PushPacket, QueuesOk, OrderedUnder, StatesListed, ChannelsListed;
    PushNotifiesIff(s.sched, c, p);
  }

  lemma TakePlaced(s: System)
    requires Coherent(s.sched) && s.sched.ready != [] && Checked in s.workers
    ensures Placed(s, TakeTask, TakeNext(s))
  {
    hide Coherent, Take, Move, Moves;
    MoveMoves(s, TakeNext(s), Checked, Executing(Take(s.sched).1.state));
  }

  lemma FinishPlaced(s: System, st: StateId)
    requires Coherent(s.sched) && Executing(st) in s.workers
    requires st != STATELESS ==> st in s.sched.queues && !s.sched.queues[st].enabled
    ensures Placed(s, FinishTask(st), FinishStep(s, st))
  {
    hide Coherent, Finish, Move, Moves;
    MoveMoves(s, FinishStep(s, st), Executing(st), AtTop);
  }

  lemma StepPlaced(s: System, e: Event)
    requires Inv(s) && Enabled(s, e)
    requires e.Check? || e.Exit? || e.Wait? || e.WakeUp? || e.GiveUp?
    ensures Placed(s, e, Apply(s, e))
  {
    hide Inv, Move, Moves;
    match e
    case Check => MoveMoves(s, Apply(s, e), AtTop, Checked);
    case Exit => MoveMoves(s, Apply(s, e), AtTop, Exited);
    case Wait => MoveMoves(s, Apply(s, e), Checked, Blocked);
    case WakeUp => MoveMoves(s, Apply(s, e), Blocked, Checked);
    case GiveUp => MoveMoves(s, Apply(s, e), Checked, AtTop);
  }

  lemma PhasePlaced(s: System, e: Event)
    requires Inv(s) && Enabled(s, e)
    requires e.Tick? || e.StartWorkers? || e.RequestStop? || e.NotifyAll? || e.JoinWorkers?
    ensures Placed(s, e, Apply(s, e))
  {
    hide Inv, Move, Moves;
  }

  lemma SlotPlaced(s: System, e: Event)
    requires Inv(s) && Enabled(s, e)
    requires e.AcquireFirst? || e.ReleaseDropped? || e.AcquireAgain? || e.ReleaseProcessed?
    ensures Placed(s, e, Apply(s, e))
  {
    hide Inv, Enabled, Moves, BeforeAll, Apply;
    SlotEventMoves(s, e);
  }

  lemma PopPlaced(s: System, c: ChannelId)
    requires Coherent(s.sched) && c < |s.sched.config|
    ensures Placed(s, DropOldest(c), DropOldestStep(s, c)) && Placed(s, Poll(c), PollStep(s, c))
  {
    hide Coherent, Moves, BeforeAll, PopNext;
  }

  lemma QueuePlaced(s: System, e: Event)
    requires Inv(s) && Enabled(s, e) && (e.DropOldest? || e.Poll?)
    ensures Placed(s, e, Apply(s, e))
  {
    hide Coherent, SlotsConserved, MutuallyExclusive, WorkersCounted, SomeoneAwake, PacketsConserved, Placed, DropOldestStep, PollStep;
    EventDefined(s, e);
    PopPlaced(s, e.channel);
  }

  lemma ControlPlaced(s: System, e: Event)
    requires Inv(s) && Enabled(s, e)
    requires !e.PushFilled? && !e.TakeTask? && !e.FinishTask?
    ensures Placed(s, e, Apply(s, e))
  {
    hide Inv, Enabled, Apply, Placed;
    if e.Check? || e.Exit? || e.Wait? || e.WakeUp? || e.GiveUp? {
      StepPlaced(s, e);
    } else if e.Tick? || e.StartWorkers? || e.RequestStop? || e.NotifyAll? || e.JoinWorkers? {
      PhasePlaced(s, e);
    } else if e.DropOldest? || e.Poll? {
      QueuePlaced(s, e);
    } else {
      SlotPlaced(s, e);
    }
  }

  /** Each event moves the workers exactly as the code does. */
  lemma EventPlaces(s: System, e: Event)
    requires Inv(s) && Enabled(s, e)
    ensures Placed(s, e, Apply(s, e))
  {
    hide Coherent, SlotsConserved, AcquiringOk, MutuallyExclusive, WorkersCounted, SomeoneAwake, PacketsConserved, Placed, PushStep, TakeNext, FinishStep;
    EventDefined(s, e);
    match e
    case PushFilled(c, p) => PushPlaced(s, c, p);
    case TakeTask => TakePlaced(s);
    case FinishTask(st) => FinishPlaced(s, st);
    case _ => ControlPlaced(s, e);
  }

  // ---------- nobody is stuck ----------

  /** Whoever holds a slot can always pass it on, and whoever is inside Acquire can go on: a filled
      packet can be pushed with any timestamp that is not in the future, a processed slot released,
      a dropped one too; a producer can always begin to acquire and a polling thread to poll. */
  lemma HoldersGoOn(s: System, c: ChannelId, k: Slot, t: int)
    requires Inv(s)
    ensures (c, k) in s.filling && t <= s.now ==> Enabled(s, PushFilled(c, Packet(k, t)))
    ensures (c, k) in s.processing ==> Enabled(s, ReleaseProcessed(c, k))
    ensures HoldsDropped(c, k) in s.acquiring ==> Enabled(s, ReleaseDropped(c, k))
    ensures WantsDrop(c) in s.acquiring ==> Enabled(s, DropOldest(c))
    ensures Retries(c) in s.acquiring ==> Enabled(s, AcquireAgain(c))
    ensures c < |s.sched.config| ==> Enabled(s, AcquireFirst(c)) && (!s.sched.config[c].scheduled ==> Enabled(s, Poll(c)))
    ensures s.now <= t < MAX_TIME ==> Enabled(s, Tick(t))
  {
  }

  /** And no event makes a packet or a slot appear: who pushes has filled the slot, who releases has
      processed it. */
  lemma OnlyHoldersAct(s: System, e: Event)
    requires Inv(s) && Enabled(s, e)
    ensures e.PushFilled? ==> (e.channel, e.packet.slot) in s.filling && e.packet.timestamp <= s.now
    ensures e.ReleaseProcessed? ==> (e.channel, e.slot) in s.processing
    ensures e.TakeTask? ==> exists c, p :: Eligible(s.sched, c, p)
  {
    hide SlotsConserved, AcquiringOk, MutuallyExclusive, WorkersCounted, SomeoneAwake, PacketsConserved;
    if e.TakeTask? {
      ReadyIffEligible(s.sched);
    }
  }
}
