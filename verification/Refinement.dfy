/** The three heaps refine a plain multiset of queued packets and a set of busy states. */
module Refinement {
  import opened Heaps
  import opened Scheduling
  import opened Channels
  import opened Workers

  type Entry = (ChannelId, Packet)

  /** The multiset of (channel, packet) pairs queued in all channels. */
  ghost function Bag(queued: seq<seq<Packet>>): (b: multiset<Entry>) {
    if queued == [] then multiset{} else
      var n := |queued| - 1;
      Bag(queued[..n]) + Tagged(n, queued[n])
  }

  ghost function Tagged(c: ChannelId, q: seq<Packet>): (b: multiset<Entry>) {
    if q == [] then multiset{} else Tagged(c, q[1..]) + multiset{(c, q[0])}
  }

  lemma {:induction false} TaggedCounts(c: ChannelId, q: seq<Packet>, d: ChannelId, p: Packet)
    ensures Tagged(c, q)[(d, p)] == if d == c then Count(q, p) else 0
  {
    if q == [] {
    } else {
      TaggedCounts(c, q[1..], d, p);
      assert q == [q[0]] + q[1..];
    }
  }

  /** The bag holds exactly what the queues hold. */
  lemma {:induction false} BagCounts(queued: seq<seq<Packet>>, c: ChannelId, p: Packet)
    ensures Bag(queued)[(c, p)] == if c < |queued| then Count(queued[c], p) else 0
  {
    if queued == [] {
    } else {
      var n := |queued| - 1;
      BagCounts(queued[..n], c, p);
      TaggedCounts(n, queued[n], c, p);
    }
  }

  lemma BagGains(queued: seq<seq<Packet>>, c: ChannelId, q: seq<Packet>, p: Packet)
    requires c < |queued| && multiset(q) == multiset(queued[c]) + multiset{p}
    ensures Bag(queued[c := q]) == Bag(queued) + multiset{(c, p)}
  {
    forall e: Entry ensures Bag(queued[c := q])[e] == (Bag(queued) + multiset{(c, p)})[e] {
      BagCounts(queued, e.0, e.1);
      BagCounts(queued[c := q], e.0, e.1);
      assert e == (e.0, e.1);
    }
  }

  lemma BagLoses(queued: seq<seq<Packet>>, c: ChannelId, q: seq<Packet>, p: Packet)
    requires c < |queued| && p in queued[c] && multiset(q) == multiset(queued[c]) - multiset{p}
    ensures (c, p) in Bag(queued)
    ensures Bag(queued[c := q]) == Bag(queued) - multiset{(c, p)}
  {
    var queued' := queued[c := q];
    assert queued'[c := queued[c]] == queued;
    assert multiset(queued[c]) == multiset(q) + multiset{p};
    BagGains(queued', c, queued[c], p);
  }

  // ---------- the abstract scheduler ----------

  datatype Abstract = Abstract(bag: multiset<Entry>, busy: set<StateId>)

  ghost predicate MayTake(config: seq<ChannelConfig>, a: Abstract, e: Entry) {
    && e in a.bag
    && e.0 < |config|
    && config[e.0].scheduled
    && config[e.0].state !in a.busy
  }

  /** A worker takes any minimal packet it may take, and its state becomes busy. */
  ghost predicate AbstractTake(config: seq<ChannelConfig>, a: Abstract, a': Abstract, e: Entry) {
    && MayTake(config, a, e)
    && (forall o: Entry :: MayTake(config, a, o) ==> e.1.timestamp <= o.1.timestamp)
    && a'.bag == a.bag - multiset{e}
    && a'.busy == if config[e.0].state == STATELESS then a.busy else a.busy + {config[e.0].state}
  }

  ghost predicate AbstractFinish(a: Abstract, a': Abstract, st: StateId) {
    && st in a.busy
    && a' == a.(busy := a.busy - {st})
  }

  ghost predicate AbstractPush(a: Abstract, a': Abstract, e: Entry) {
    a' == a.(bag := a.bag + multiset{e})
  }

  /** A drop or a poll takes any minimal packet of one channel. */
  ghost predicate AbstractPop(a: Abstract, a': Abstract, e: Entry) {
    && e in a.bag
    && (forall p :: (e.0, p) in a.bag ==> e.1.timestamp <= p.timestamp)
    && a' == a.(bag := a.bag - multiset{e})
  }

  ghost function Busy(queues: map<StateId, ChannelHeap>): set<StateId> {
    set st | st in queues && !queues[st].enabled
  }

  ghost function Abs(s: Sched): Abstract {
    Abstract(Bag(s.queued), Busy(s.queues))
  }

  lemma SameBusy(queues: map<StateId, ChannelHeap>, queues': map<StateId, ChannelHeap>)
    requires queues'.Keys == queues.Keys
    requires forall st :: st in queues ==> queues'[st].enabled == queues[st].enabled
    ensures Busy(queues') == Busy(queues)
  {
    forall st ensures st in Busy(queues') <==> st in Busy(queues) {
      assert st in queues' <==> st in queues'.Keys;
    }
  }

  /** Only `st` may have become busy or stopped being busy. */
  lemma BusyChanged(queues: map<StateId, ChannelHeap>, queues': map<StateId, ChannelHeap>, st: StateId)
    requires queues'.Keys == queues.Keys && st in queues
    requires forall x :: x in queues && x != st ==> queues'[x].enabled == queues[x].enabled
    ensures Busy(queues') == if queues'[st].enabled then Busy(queues) - {st} else Busy(queues) + {st}
  {
    assert queues.Keys == queues'.Keys;
    forall x | x != st ensures x in Busy(queues') <==> x in Busy(queues) {
      assert x in queues' <==> x in queues'.Keys;
    }
  }

  lemma MayTakeIffEligible(s: Sched, e: Entry)
    requires Coherent(s)
    ensures MayTake(s.config, Abs(s), e) <==> Eligible(s, e.0, e.1)
  {
    hide QueuesOk, OrderedUnder, StatesListed, ChannelsListed;
    BagCounts(s.queued, e.0, e.1);
    assert e == (e.0, e.1);
  }

  lemma TakeAbs(s: Sched)
    requires Coherent(s) && s.ready != []
    ensures var (s', t) := Take(s);
      && Abs(s').bag == Abs(s).bag - multiset{(t.channel, t.packet)}
      && Abs(s').busy == if t.state == STATELESS then Abs(s).busy else Abs(s).busy + {t.state}
  {
    hide QueueOk, OrderedUnder, StatesListed, ChannelsListed, Take, Bag, Busy;
    TakeEffect(s);
    var (s', t) := Take(s);
    assert t.packet in s.queued[t.channel];
    BagLoses(s.queued, t.channel, Dequeue(s.queued[t.channel]), t.packet);
    if t.state == STATELESS {
      SameBusy(s.queues, s'.queues);
    } else {
      BusyChanged(s.queues, s'.queues, t.state);
    }
  }

  lemma TakeRefines(s: Sched)
    requires Coherent(s) && s.ready != []
    ensures var (s', t) := Take(s); AbstractTake(s.config, Abs(s), Abs(s'), (t.channel, t.packet))
  {
    hide QueueOk, OrderedUnder, StatesListed, ChannelsListed, Take, Abs, MayTake, Eligible, BeforeAll;
    TakeEffect(s);
    var (s', t) := Take(s);
    var e := (t.channel, t.packet);
    TakeAbs(s);
    MayTakeIffEligible(s, e);
    forall o: Entry | MayTake(s.config, Abs(s), o) ensures t.packet.timestamp <= o.1.timestamp {
      MayTakeIffEligible(s, o);
      EarliestFirst(s, o.0, o.1);
    }
  }

  /** A worker waits exactly when the abstract scheduler has nothing to take. */
  lemma WaitRefines(s: Sched)
    requires Coherent(s)
    ensures s.ready == [] <==> forall e: Entry :: !MayTake(s.config, Abs(s), e)
  {
    hide MayTake, Eligible, QueuesOk, OrderedUnder, StatesListed, ChannelsListed;
    ReadyIffEligible(s);
    if s.ready != [] {
      var c, p :| Eligible(s, c, p);
      MayTakeIffEligible(s, (c, p));
    } else {
      forall e: Entry ensures !MayTake(s.config, Abs(s), e) {
        MayTakeIffEligible(s, e);
      }
    }
  }

  lemma FinishRefines(s: Sched, st: StateId)
    requires Coherent(s) && st in s.queues && !s.queues[st].enabled
    ensures AbstractFinish(Abs(s), Abs(Finish(s, st)), st)
  {
    hide QueuesOk, OrderedUnder, StatesListed, ChannelsListed, Finish;
    FinishEffect(s, st);
    BusyChanged(s.queues, Finish(s, st).queues, st);
  }

  lemma PushRefines(s: Sched, c: ChannelId, p: Packet)
    requires Coherent(s) && c < |s.config| && p.timestamp < MAX_TIME
    ensures AbstractPush(Abs(s), Abs(PushPacket(s, c, p).0), (c, p))
  {
    hide QueueOk, OrderedUnder, StatesListed, ChannelsListed, PushPacket;
    PushPacketCoherent(s, c, p);
    BagGains(s.queued, c, Enqueue(s.queued[c], p), p);
    SameBusy(s.queues, PushPacket(s, c, p).0.queues);
  }

  lemma PopRefines(s: Sched, c: ChannelId)
    requires Coherent(s) && c < |s.config| && s.queued[c] != []
    ensures var (s', p) := PopNext(s, c); AbstractPop(Abs(s), Abs(s'), (c, p))
  {
    hide QueueOk, OrderedUnder, StatesListed, ChannelsListed, PopNext;
    PopNextCoherent(s, c);
    var (s', p) := PopNext(s, c);
    BagLoses(s.queued, c, Dequeue(s.queued[c]), p);
    SameBusy(s.queues, s'.queues);
    hide Bag, Busy;
    forall r | (c, r) in Abs(s).bag ensures p.timestamp <= r.timestamp {
      BagCounts(s.queued, c, r);
      FrontIsFirst(s.queued[c], r);
    }
  }

  // ---------- one worker, no new packets ----------

  ghost predicate AllEnabled(s: Sched) {
    forall st :: st in s.queues ==> s.queues[st].enabled
  }

  /** One turn of a single worker: take a task, execute it, finish it. */
  ghost function Turn(s: Sched): (r: (Sched, Task))
    requires Coherent(s) && AllEnabled(s) && s.ready != []
    ensures Coherent(r.0) && AllEnabled(r.0)
    ensures r.0.config == s.config
    ensures |Bag(r.0.queued)| < |Bag(s.queued)|
  {
    TurnEffect(s);
    var (s', t) := Take(s);
    if t.state == STATELESS then (s', t) else (Finish(s', t.state), t)
  }

  lemma TurnEffect(s: Sched)
    requires Coherent(s) && AllEnabled(s) && s.ready != []
    ensures var (s', t) := Take(s);
      && (t.state != STATELESS ==> t.state in s'.queues && !s'.queues[t.state].enabled)
      && Coherent(s')
      && var s'' := if t.state == STATELESS then s' else Finish(s', t.state);
      && Coherent(s'') && AllEnabled(s'')
      && s''.config == s.config
      && t.channel < |s.config| && s.config[t.channel].scheduled
      && t.packet in s.queued[t.channel]
      && s''.queued == s.queued[t.channel := Dequeue(s.queued[t.channel])]
      && (t.channel, t.packet) in Bag(s.queued)
      && Bag(s''.queued) == Bag(s.queued) - multiset{(t.channel, t.packet)}
  {
    hide QueueOk, OrderedUnder, StatesListed, ChannelsListed, Take, Finish;
    TakeEffect(s);
    var (s', t) := Take(s);
    if t.state != STATELESS {
      FinishEffect(s', t.state);
    }
    BagLoses(s.queued, t.channel, Dequeue(s.queued[t.channel]), t.packet);
  }

  /** The tasks a single worker executes until it has nothing left to do. */
  ghost function Drain(s: Sched): (tasks: seq<Task>)
    requires Coherent(s) && AllEnabled(s)
    decreases |Bag(s.queued)|
  {
    if s.ready == [] then [] else
      var (s', t) := Turn(s);
      [t] + Drain(s')
  }

  ghost function Entries(tasks: seq<Task>): multiset<Entry> {
    if tasks == [] then multiset{} else multiset{(tasks[0].channel, tasks[0].packet)} + Entries(tasks[1..])
  }

  /** Each packet queued in a scheduled channel is executed exactly as often as it is queued. */
  lemma {:induction false} DrainTakesAll(s: Sched, c: ChannelId, p: Packet)
    requires Coherent(s) && AllEnabled(s)
    ensures Entries(Drain(s))[(c, p)] == if c < |s.config| && s.config[c].scheduled then Count(s.queued[c], p) else 0
    decreases |Bag(s.queued)|
  {
    hide Take, Finish, QueuesOk, OrderedUnder, StatesListed, ChannelsListed, Bag, Dequeue;
    if s.ready == [] {
      ReadyIffEligible(s);
      assert !Eligible(s, c, p);
    } else {
      var (s', t) := Turn(s);
      TurnEffect(s);
      DrainTakesAll(s', c, p);
      assert Drain(s)[1..] == Drain(s');
      BagCounts(s.queued, c, p);
      BagCounts(s'.queued, c, p);
    }
  }

  /** ... in timestamp order. */
  lemma {:induction false} DrainIsSorted(s: Sched, i: nat, j: nat)
    requires Coherent(s) && AllEnabled(s)
    requires i <= j < |Drain(s)|
    ensures Drain(s)[i].packet.timestamp <= Drain(s)[j].packet.timestamp
    decreases |Bag(s.queued)|
  {
    hide QueueOk, OrderedUnder, StatesListed, ChannelsListed, Take, Finish, Bag;
    if s.ready == [] {
    } else {
      var (s', t) := Turn(s);
      if i > 0 {
        DrainIsSorted(s', i - 1, j - 1);
      } else if j > 0 {
        var d := Drain(s)[j];
        assert d == Drain(s')[j - 1];
        EntryOf(Drain(s'), j - 1);
        DrainTakesAll(s', d.channel, d.packet);
        DrainTakesAll(s, d.channel, d.packet);
        assert Drain(s)[1..] == Drain(s');
        assert d.packet in s.queued[d.channel];
        EarliestFirst(s, d.channel, d.packet);
      }
    }
  }

  lemma {:induction false} EntryOf(tasks: seq<Task>, i: nat)
    requires i < |tasks|
    ensures Entries(tasks)[(tasks[i].channel, tasks[i].packet)] > 0
  {
    if i == 0 {
    } else {
      EntryOf(tasks[1..], i - 1);
    }
  }
}
