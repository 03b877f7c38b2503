/** What one call of GatherNSerialize takes from the aggregates, on values. */
module Profiles {
  import opened ByteOrder
  import opened Wire
  import opened Aggregates
  import opened Buffers
  import opened Senders

  /** The clock, read for the time passed and again when the aggregate is cleared. */
  datatype Readings = Readings(read: int, clear: int)

  /** What a ProfileData is constructed with. */
  datatype Config = Config(doubles: Doubles, group: Text, names: seq<Text>)

  /** Its state; aggregate number |stats| is the end of the map. */
  datatype Profile = Profile(stats: seq<Stats>, table: seq<Entry>, next: nat)

  /** The aggregate the next call visits first. */
  function First(p: Profile): nat {
    if p.next == |p.stats| then 0 else p.next
  }

  /** The sender the next call prints, if it starts a pass. */
  function NextSender(p: Profile): Sender
    requires p.table != []
  {
    if p.next == |p.stats| then Sender(TopText(p.table)) else NoSender
  }

  ghost predicate ProfileOk(c: Config, p: Profile) {
    && |c.names| == |p.stats| && p.next <= |p.stats| && |p.table| == MAX_SENDERS
    && (forall k :: 0 <= k < |c.names| ==> NulFree(c.names[k]))
  }

  /** Whatever is still to be visited can be printed. */
  ghost predicate Ready(c: Config, p: Profile, clock: seq<Readings>) {
    && ProfileOk(c, p) && |clock| == |p.stats|
    && (forall k :: First(p) <= k < |p.stats| ==> Printable(p.stats[k], clock[k].read))
  }

  /** Aggregate k, as it would be printed. */
  ghost function SummaryAt(c: Config, p: Profile, k: nat, now: int): (e: Event)
    requires ProfileOk(c, p) && k < |p.stats| && Printable(p.stats[k], now)
    ensures EventOk(e) && e == Summary(c.doubles, c.names[k], p.stats[k], now)
  {
    Summary(c.doubles, c.names[k], p.stats[k], now)
  }

  /** What the next call finds in the aggregates it has still to visit. */
  ghost function Pending(c: Config, p: Profile, clock: seq<Readings>): (r: seq<Event>)
    requires Ready(c, p, clock)
    ensures |r| == |p.stats| - First(p) && EventsOk(r)
  {
    var from := First(p);
    var r := seq(|p.stats| - from, i requires 0 <= i < |p.stats| - from => SummaryAt(c, p, from + i, clock[from + i].read));
    assert forall i :: 0 <= i < |r| ==> r[i] == SummaryAt(c, p, from + i, clock[from + i].read);
    r
  }

  /** How many aggregates the next call visits, and the packet it prints. */
  ghost function CallVisits(c: Config, p: Profile, size: nat, clock: seq<Readings>): (n: nat)
    requires Ready(c, p, clock)
    ensures First(p) + n <= |p.stats|
  {
    Consumed(size, c.group, NextSender(p), Pending(c, p, clock))
  }

  ghost function CallPacket(c: Config, p: Profile, size: nat, clock: seq<Readings>): seq<Byte>
    requires Ready(c, p, clock)
  {
    Packet(size, c.group, NextSender(p), Pending(c, p, clock))
  }

  /** The state after `n` aggregates have been visited in a call that found `p`. */
  function Visiting(c: Config, p: Profile, n: nat, clock: seq<Readings>): (r: Profile)
    requires |p.stats| == |clock|
    ensures |r.stats| == |p.stats| && r.next == First(p) + n
  {
    Profile(seq(|p.stats|, k requires 0 <= k < |p.stats| =>
              if First(p) <= k < First(p) + n then Cleared(c.doubles, clock[k].clear) else p.stats[k]),
            if p.next == |p.stats| then Empty() else p.table,
            First(p) + n)
  }

  lemma {:induction false} AllEventBytesAppend(events: seq<Event>, more: seq<Event>)
    requires EventsOk(events) && EventsOk(more)
    ensures EventsOk(events + more)
    ensures AllEventBytes(events + more) == AllEventBytes(events) + AllEventBytes(more)
  {
    hide EventBytes, EventOk;
    if events == [] {
      assert events + more == more;
    } else {
      AllEventBytesAppend(events[1..], more);
      assert (events + more)[1..] == events[1..] + more;
      var b, x, y := EventBytes(events[0]), AllEventBytes(events[1..]), AllEventBytes(more);
      assert b + (x + y) == (b + x) + y;
    }
  }

  /** One more aggregate visited, one more in the packet if it was not empty. */
  lemma PrintedNext(events: seq<Event>, n: nat)
    requires EventsOk(events) && n < |events|
    ensures EventsOk(NonEmpty(events[..n])) && EventsOk(NonEmpty(events[..n + 1])) && EventsOk(IfCounted(events[n]))
    ensures AllEventBytes(NonEmpty(events[..n + 1])) == AllEventBytes(NonEmpty(events[..n])) + AllEventBytes(IfCounted(events[n]))
  {
    NonEmptyOk(events[..n]);
    NonEmptyOk(events[..n + 1]);
    assert events[..n + 1] == events[..n] + [events[n]];
    NonEmptyOne(events[..n], events[n]);
    AllEventBytesAppend(NonEmpty(events[..n]), IfCounted(events[n]));
  }

  /** `b` is what stands in the buffer after `n` visits of a call, and the call goes on as it should. */
  ghost predicate Printed(size: nat, group: Text, sender: Sender, events: seq<Event>, n: nat, b: seq<Byte>) {
    && n <= |events| && EventsOk(events) && EventsOk(NonEmpty(events[..n]))
    && b == Head(group, sender) + AllEventBytes(NonEmpty(events[..n])) && |b| <= size
    && Consumed(size, group, sender, events) == n + Visited(size - 64, |b|, events[n..])
  }

  lemma BeforeVisits(size: nat, group: Text, sender: Sender, events: seq<Event>)
    requires EventsOk(events) && size >= 128
    ensures Printed(size, group, sender, events, 0, Head(group, sender))
  {
    assert Head(group, sender) + [] == Head(group, sender);
    assert events[0..] == events;
  }

  /** One more visit keeps the promise; it writes 64 bytes at most. */
  lemma VisitPrints(size: nat, group: Text, sender: Sender, events: seq<Event>, n: nat, b: seq<Byte>)
    requires Printed(size, group, sender, events, n, b) && |b| <= size - 64 && n < |events|
    ensures EventsOk(IfCounted(events[n])) && |AllEventBytes(IfCounted(events[n]))| <= 64
    ensures Printed(size, group, sender, events, n + 1, b + AllEventBytes(IfCounted(events[n])))
  {
    hide Visited, Consumed, Head, EventsOk, NonEmpty, IfCounted, AllEventBytes;
    PrintedNext(events, n);
    VisitedNext(size - 64, |b|, events, n);
    var x, y, z := Head(group, sender), AllEventBytes(NonEmpty(events[..n])), AllEventBytes(IfCounted(events[n]));
    Associative(x, y, z);
  }

  lemma VisitedNext(limit: int, used: nat, events: seq<Event>, n: nat)
    requires EventsOk(events) && n < |events| && used <= limit
    ensures EventsOk(IfCounted(events[n])) && |AllEventBytes(IfCounted(events[n]))| <= 64
    ensures Visited(limit, used, events[n..]) ==
            1 + Visited(limit, used + |AllEventBytes(IfCounted(events[n]))|, events[n + 1..])
  {
    hide EventOk, EventBytes, AllEventBytes, IfCounted;
    CountedBytes(events[n]);
    VisitedFirst(limit, used, events[n..]);
    assert events[n..][1..] == events[n + 1..];
  }

  lemma VisitsDone(size: nat, group: Text, sender: Sender, events: seq<Event>, n: nat, b: seq<Byte>)
    requires Printed(size, group, sender, events, n, b) && (|b| > size - 64 || n == |events|)
    ensures n == Consumed(size, group, sender, events) && b == Packet(size, group, sender, events) && |b| <= size
  {
  }

  /** The next aggregate is untouched so far, and its turn comes. */
  lemma VisitingNext(c: Config, p: Profile, n: nat, clock: seq<Readings>)
    requires Ready(c, p, clock) && First(p) + n < |p.stats|
    ensures var k, now := First(p) + n, Visiting(c, p, n, clock);
      && now.next == k && |now.stats| == |p.stats| && ProfileOk(c, now)
      && Printable(now.stats[k], clock[k].read)
      && Visiting(c, p, n + 1, clock) ==
         Profile(now.stats[k := Cleared(c.doubles, clock[k].clear)], now.table, k + 1)
      && Pending(c, p, clock)[n] == SummaryAt(c, now, k, clock[k].read)
  {
    assert Pending(c, p, clock)[n] == SummaryAt(c, p, First(p) + n, clock[First(p) + n].read);
  }

  /** A call that found `p`, after `n` visits: `now` is the state, `b` what stands in the buffer. */
  ghost predicate InCall(c: Config, p: Profile, size: nat, clock: seq<Readings>, n: nat, now: Profile, b: seq<Byte>) {
    && Ready(c, p, clock)
    && now == Visiting(c, p, n, clock)
    && Printed(size, c.group, NextSender(p), Pending(c, p, clock), n, b)
  }

  lemma CallStarts(c: Config, p: Profile, size: nat, clock: seq<Readings>)
    requires Ready(c, p, clock) && size >= 128
    ensures |p.table| > 0
    ensures InCall(c, p, size, clock, 0, Profile(p.stats, if p.next == |p.stats| then Empty() else p.table, First(p)),
                   Head(c.group, NextSender(p)))
  {
    BeforeVisits(size, c.group, NextSender(p), Pending(c, p, clock));
    hide Printed, Pending, Printable;
  }

  /** What the next turn of the loop may rely on, and what it leaves. */
  lemma CallGoesOn(c: Config, p: Profile, size: nat, clock: seq<Readings>, n: nat, now: Profile, b: seq<Byte>)
    requires InCall(c, p, size, clock, n, now, b)
    requires |b| <= size - 64 && now.next < |now.stats|
    ensures ProfileOk(c, now) && now.next < |clock| && Printable(now.stats[now.next], clock[now.next].read)
    ensures var e := SummaryAt(c, now, now.next, clock[now.next].read);
      && EventsOk(IfCounted(e))
      && |AllEventBytes(IfCounted(e))| <= 64
      && InCall(c, p, size, clock, n + 1,
                Profile(now.stats[now.next := Cleared(c.doubles, clock[now.next].clear)], now.table, now.next + 1),
                b + AllEventBytes(IfCounted(e)))
  {
    VisitingNext(c, p, n, clock);
    VisitPrints(size, c.group, NextSender(p), Pending(c, p, clock), n, b);
    hide Visiting, Printed, Pending, Printable, ProfileOk, EventsOk, AllEventBytes, IfCounted, Cleared, NextSender, SummaryAt;
  }

  lemma CallEnds(c: Config, p: Profile, size: nat, clock: seq<Readings>, n: nat, now: Profile, b: seq<Byte>)
    requires InCall(c, p, size, clock, n, now, b)
    requires |b| > size - 64 || now.next == |now.stats|
    ensures now == Visiting(c, p, CallVisits(c, p, size, clock), clock)
    ensures b == CallPacket(c, p, size, clock) && |b| <= size
  {
    VisitsDone(size, c.group, NextSender(p), Pending(c, p, clock), n, b);
    hide Visiting, Consumed, Packet, Visited, EventsOk, NonEmpty, AllEventBytes, Head;
  }

  // ---------- the calls of a pass ----------

  /** The packets that complete a pass from `p` on, and the state after them. */
  ghost function PassFrom(c: Config, p: Profile, size: nat, clock: seq<Readings>): seq<seq<Byte>>
    requires Ready(c, p, clock) && size >= 128
  {
    HeadRoom(size, c.group, NextSender(p));
    Pass(size, c.group, NextSender(p), Pending(c, p, clock))
  }

  function Finished(c: Config, p: Profile, clock: seq<Readings>): Profile
    requires |p.stats| == |clock| && p.next <= |p.stats|
  {
    Visiting(c, p, |p.stats| - First(p), clock)
  }

  lemma NextReady(c: Config, p: Profile, n: nat, clock: seq<Readings>)
    requires Ready(c, p, clock) && First(p) + n < |p.stats|
    ensures var q := Visiting(c, p, n, clock);
      Ready(c, q, clock) && First(q) == First(p) + n && NextSender(q) == NoSender
    ensures forall k :: First(p) + n <= k < |p.stats| ==> Visiting(c, p, n, clock).stats[k] == p.stats[k]
  {
    hide Printable, Cleared, TopText;
  }

  lemma NextFinished(c: Config, p: Profile, n: nat, clock: seq<Readings>)
    requires Ready(c, p, clock) && First(p) + n < |p.stats|
    ensures Finished(c, Visiting(c, p, n, clock), clock) == Finished(c, p, clock)
  {
    hide Printable, Cleared, NulFree;
  }

  /** After a call that is not the last, the next one goes on where it stopped. */
  lemma NextCall(c: Config, p: Profile, n: nat, clock: seq<Readings>)
    requires Ready(c, p, clock) && First(p) + n < |p.stats|
    ensures var q := Visiting(c, p, n, clock);
      && Ready(c, q, clock) && First(q) == First(p) + n && NextSender(q) == NoSender
      && Pending(c, q, clock) == Pending(c, p, clock)[n..]
      && Finished(c, q, clock) == Finished(c, p, clock)
  {
    hide Visiting, Finished, Printable, NulFree, Summary;
    NextReady(c, p, n, clock);
    NextFinished(c, p, n, clock);
    var q := Visiting(c, p, n, clock);
    var from, to := Pending(c, p, clock), Pending(c, q, clock);
    forall i | 0 <= i < |to| ensures to[i] == from[n..][i] {
      assert to[i] == SummaryAt(c, q, First(q) + i, clock[First(q) + i].read);
      assert from[n + i] == SummaryAt(c, p, First(p) + (n + i), clock[First(p) + (n + i)].read);
    }
  }

  /** One call, and the rest of the pass. */
  lemma PassGoesOn(c: Config, p: Profile, size: nat, clock: seq<Readings>)
    requires Ready(c, p, clock) && size >= 128
    ensures var q := Visiting(c, p, CallVisits(c, p, size, clock), clock);
      if q.next == |q.stats| then
        q == Finished(c, p, clock) && PassFrom(c, p, size, clock) == [CallPacket(c, p, size, clock)]
      else
        && Ready(c, q, clock) && First(p) < First(q) && Finished(c, q, clock) == Finished(c, p, clock)
        && PassFrom(c, p, size, clock) == [CallPacket(c, p, size, clock)] + PassFrom(c, q, size, clock)
  {
    hide Printable, Packet, Consumed, NulFree;
    var n := CallVisits(c, p, size, clock);
    HeadRoom(size, c.group, NextSender(p));
    if Pending(c, p, clock) != [] {
      ProgressIff(size, c.group, NextSender(p), Pending(c, p, clock));
    }
    LaterPackets(size, c.group, NextSender(p), Pending(c, p, clock));
    if First(p) + n < |p.stats| {
      NextCall(c, p, n, clock);
    }
  }

  /** A pass that found `p`: `packets` have been sent, `now` is the state, and `more` says whether
      the pass goes on. */
  ghost predicate PassUnderWay(c: Config, p: Profile, size: nat, clock: seq<Readings>, now: Profile,
                         packets: seq<seq<Byte>>, more: bool) {
    && Ready(c, p, clock) && size >= 128
    && if more then
         && Ready(c, now, clock) && Finished(c, now, clock) == Finished(c, p, clock)
         && PassFrom(c, p, size, clock) == packets + PassFrom(c, now, size, clock)
       else
         now == Finished(c, p, clock) && PassFrom(c, p, size, clock) == packets
  }

  /** The number of aggregates still to be visited. */
  function Left(p: Profile): int {
    |p.stats| - First(p)
  }

  lemma PassStarts(c: Config, p: Profile, size: nat, clock: seq<Readings>)
    requires Ready(c, p, clock) && size >= 128
    ensures PassUnderWay(c, p, size, clock, p, [], true)
  {
    assert [] + PassFrom(c, p, size, clock) == PassFrom(c, p, size, clock);
  }

  lemma PassStep(c: Config, p: Profile, size: nat, clock: seq<Readings>, now: Profile, packets: seq<seq<Byte>>)
    requires PassUnderWay(c, p, size, clock, now, packets, true)
    ensures Ready(c, now, clock) && Left(now) >= 0
    ensures var q := Visiting(c, now, CallVisits(c, now, size, clock), clock);
      && PassUnderWay(c, p, size, clock, q, packets + [CallPacket(c, now, size, clock)], q.next != |q.stats|)
      && (q.next != |q.stats| ==> 0 <= Left(q) < Left(now))
  {
    hide PassFrom, CallPacket, CallVisits, Finished, Visiting, NulFree, Printable;
    PassGoesOn(c, now, size, clock);
    var q := Visiting(c, now, CallVisits(c, now, size, clock), clock);
    if q.next != |q.stats| {
      Associative(packets, [CallPacket(c, now, size, clock)], PassFrom(c, q, size, clock));
    }
  }

  lemma PassEnds(c: Config, p: Profile, size: nat, clock: seq<Readings>, now: Profile, packets: seq<seq<Byte>>)
    requires PassUnderWay(c, p, size, clock, now, packets, false)
    ensures now == Finished(c, p, clock) && packets == PassFrom(c, p, size, clock)
  {
  }

  // ---------- the bytes of one visit ----------

  lemma CountedBytes(e: Event)
    requires EventOk(e)
    ensures EventsOk(IfCounted(e))
    ensures AllEventBytes(IfCounted(e)) == if e.count == 0 then [] else EventBytes(e)
  {
    assert EventBytes(e) + [] == EventBytes(e);
  }

  /** Tag, name and record, written one after the other. */
  lemma PrintedBytes(s: seq<Byte>, start: nat, e: Event)
    requires EventOk(e) && start + 64 <= |s|
    ensures var name, r := Cut(e.name) + [0], start + 5 + |Cut(e.name)|;
      var tagged := Overwritten(Overwritten(s, start, LOGA), start + 4, name);
      var printed := Overwritten(tagged, r, Record(e));
      && r + 32 == start + |EventBytes(e)|
      && printed == Overwritten(s, start, EventBytes(e))
      && printed[r..r + 4] == Bytes(e.count, 4)
  {
    hide Overwritten, Record, Cut;
    OverwrittenThrice(s, start, LOGA, Cut(e.name) + [0], Record(e));
    RecordStart(e);
    assert Keyword(LOGA, e.name) == LOGA + (Cut(e.name) + [0]);
  }

  lemma GroupBytes(s: seq<Byte>, group: Text)
    requires |s| >= 32
    ensures |Keyword(DGRP, group)| == 5 + |Cut(group)|
    ensures Overwritten(Overwritten(s, 0, DGRP), 4, Cut(group) + [0]) == Overwritten(s, 0, Keyword(DGRP, group))
  {
    OverwrittenTwice(s, 0, DGRP, Cut(group) + [0]);
    assert DGRP + (Cut(group) + [0]) == Keyword(DGRP, group);
    hide Overwritten, Cut;
  }

  lemma HeadParts(group: Text, sender: Sender)
    ensures Head(group, sender) == if sender.Sender? then Keyword(DGRP, group) + Keyword(SEND, sender.name) else Keyword(DGRP, group)
    ensures |Head(group, sender)| <= 64
  {
    hide Keyword;
  }

  lemma StartOverwritten(s: seq<Byte>, b: seq<Byte>, r: seq<Byte>)
    requires |b| <= |s| && r == Overwritten(s, 0, b)
    ensures r[..|b|] == b && forall i :: |b| <= i < |s| ==> r[i] == s[i]
  {
  }

  lemma NamelessRecord(d: Doubles, name: Text, s: Stats, now: int)
    requires NulFree(name) && Printable(s, now)
    ensures Summary(d, name, s, now).name == name
    ensures EventOk(Summary(d, [], s, now)) && Record(Summary(d, [], s, now)) == Record(Summary(d, name, s, now))
  {
    hide Bytes, Pow256;
    assert NulFree([]);
  }

  lemma RecordStart(e: Event)
    requires EventOk(e)
    ensures Record(e)[..4] == Bytes(e.count, 4)
  {
  }

  lemma OverwrittenThrice(s: seq<Byte>, pos: nat, a: seq<Byte>, b: seq<Byte>, c: seq<Byte>)
    requires pos + |a| + |b| + |c| <= |s| && |c| >= 4
    ensures var r := pos + |a| + |b|;
      var twice := Overwritten(Overwritten(s, pos, a), pos + |a|, b);
      && Overwritten(twice, r, c) == Overwritten(s, pos, (a + b) + c)
      && Overwritten(twice, r, c)[r..r + 4] == c[..4]
  {
    OverwrittenTwice(s, pos, a, b);
    OverwrittenTwice(s, pos, a + b, c);
    OverwrittenParts(Overwritten(s, pos, a + b), pos + |a + b|, c);
    var all, r := Overwritten(s, pos, (a + b) + c), pos + |a| + |b|;
    assert all[r..r + 4] == all[r..r + |c|][..4];
    hide Overwritten;
  }

  /** The number just written is read back to see whether it is zero. */
  lemma ZeroReadBack(host: Host, v: nat)
    requires v < Pow256(4)
    ensures Value(host, Bytes(v, 4)) == 0 <==> v == 0
  {
    FourZeros(host);
    MemoryOfValue(host, Bytes(v, 4));
    ValueOfMemory(host, 0, 4);
    NumberOfBytes(v, 4);
    NumberOfBytes(0, 4);
    hide Bytes, Number, Value, Memory, Pow256;
  }

  lemma FourZeros(host: Host)
    ensures Memory(host, 0, 4) == Bytes(0, 4)
  {
    var z := Bytes(0, 4);
    assert z == [0, 0, 0, 0];
    assert Reverse(z) == z;
  }
}

/** The class of src/ProfileData.cpp. */
module ProfileDatas {
  import opened ByteOrder
  import opened Wire
  import opened Aggregates
  import opened Buffers
  import opened LogAggregates
  import opened Senders
  import opened SenderLoggers
  import opened Profiles

  /** The map's entries are numbered in its iteration order, which is fixed by the constructor;
      event number k is the one registered for entry k. */
  class ProfileData {
    const config: Config
    const host: Host
    const aggregates: seq<LogAggregate>
    const senderLogger: SenderLogger
    var serializeNext: nat

    ghost predicate Valid()
      reads this
    {
      && |config.names| == |aggregates|
      && serializeNext <= |aggregates|
      && (forall k :: 0 <= k < |config.names| ==> NulFree(config.names[k]))
      && (forall k :: 0 <= k < |aggregates| ==> aggregates[k].doubles == config.doubles && aggregates[k].host == host)
      && (forall j, k :: 0 <= j < k < |aggregates| ==> aggregates[j] != aggregates[k])
      && senderLogger.senders.Length == MAX_SENDERS
    }

    ghost function Stats(): (r: seq<Stats>)
      reads aggregates
      ensures |r| == |aggregates|
    {
      seq(|aggregates|, k requires 0 <= k < |aggregates| reads aggregates => aggregates[k].State())
    }

    ghost function View(): (p: Profile)
      reads this, aggregates, senderLogger.senders
      ensures p.next == serializeNext && |p.stats| == |aggregates|
      ensures Valid() ==> ProfileOk(config, p) && p.next <= |p.stats|
    {
      Profile(Stats(), senderLogger.senders[..], serializeNext)
    }

    /** The objects a serialization changes. */
    ghost function Parts(): set<object> {
      {this, senderLogger.senders} + set k | 0 <= k < |aggregates| :: aggregates[k]
    }

    lemma PartsAre()
      ensures this in Parts() && senderLogger.senders in Parts() && forall a <- aggregates :: a in Parts()
    {
    }

    /** In state `was`, with everything ready to be printed. */
    ghost predicate Waiting(was: Profile, clock: seq<Readings>)
      reads this, aggregates, senderLogger.senders
    {
      Valid() && View() == was && Ready(config, was, clock)
    }

    /** The packets of a pass from state `was` on are `pass`, and it is over. */
    ghost predicate Passed(was: Profile, size: nat, clock: seq<Readings>, pass: seq<seq<Byte>>)
      reads this, aggregates, senderLogger.senders
    {
      && Valid() && Ready(config, was, clock) && size >= 128
      && View() == Finished(config, was, clock) && pass == PassFrom(config, was, size, clock)
    }

    constructor (config: Config, host: Host, trackEvent: nat, now: int)
      requires forall k :: 0 <= k < |config.names| ==> NulFree(config.names[k])
      ensures Valid() && this.config == config && this.host == host
      ensures fresh(senderLogger) && fresh(senderLogger.senders) && senderLogger.trackEvent == trackEvent
      ensures forall k :: 0 <= k < |aggregates| ==> fresh(aggregates[k])
      ensures View() == Profile(seq(|config.names|, _ => Cleared(config.doubles, now)), Empty(), |config.names|)
    {
      var list: seq<LogAggregate> := [];
      for i := 0 to |config.names|
        invariant |list| == i
        invariant forall k :: 0 <= k < i ==> fresh(list[k]) && list[k].doubles == config.doubles && list[k].host == host
        invariant forall k :: 0 <= k < i ==> list[k].State() == Cleared(config.doubles, now)
        invariant forall j, k :: 0 <= j < k < i ==> list[j] != list[k]
      {
        var aggregate := new LogAggregate(config.doubles, host, now);
        list := list + [aggregate];
      }
      this.config, this.host := config, host;
      aggregates := list;
      senderLogger := new SenderLogger(trackEvent);
      serializeNext := |list|;
    }

    method Log(event: nat, value: real, threadName: CString)
      requires Valid() && event < |aggregates|
      modifies aggregates[event], senderLogger.senders
      ensures Valid()
      ensures var was := old(View());
        View() == Profile(was.stats[event := Logged(was.stats[event], value)],
                          if event == senderLogger.trackEvent then Tracked(was.table, threadName) else was.table,
                          was.next)
    {
      aggregates[event].Log(value);
      senderLogger.TrackSender(event, threadName);
    }

    /** The compulsory header and, at the start of a pass, the sender. */
    method PrintHeader(buffer: array<Byte>) returns (pos: nat)
      requires Valid() && buffer.Length >= 64
      modifies buffer, this`serializeNext, senderLogger.senders
      ensures Valid()
      ensures var was := old(View());
        && View() == Profile(was.stats, if was.next == |was.stats| then Empty() else was.table, First(was))
        && pos <= 64 && buffer[..pos] == Head(config.group, NextSender(was))
      ensures forall i :: 64 <= i < buffer.Length ==> buffer[i] == old(buffer[i])
    {
      hide Cut, Keyword, TopText, Head, Overwritten;
      ghost var was := buffer[..];
      ghost var head := Head(config.group, NextSender(View()));
      GroupBytes(was, config.group);
      HeadParts(config.group, NextSender(View()));
      pos := Copy(buffer, 0, DGRP);
      pos := CopyString(buffer, pos, config.group);
      if serializeNext == |aggregates| {
        ghost var k := Keyword(SEND, TopText(senderLogger.senders[..]));
        OverwrittenTwice(was, 0, Keyword(DGRP, config.group), k);
        pos := senderLogger.SerializeNClear(buffer, pos);
        serializeNext := 0;
      }
      assert buffer[..] == Overwritten(was, 0, head);
      StartOverwritten(was, head, buffer[..]);
    }

    /** Prints one aggregate and clears it; the count stands at `logCount`. */
    method PrintAggregate(buffer: array<Byte>, start: nat, k: nat, clock: Readings) returns (pos: nat, logCount: nat)
      requires Valid() && k < |aggregates| && start + 64 <= buffer.Length
      requires Printable(aggregates[k].State(), clock.read)
      modifies buffer, aggregates[k]
      ensures aggregates[k].State() == Cleared(config.doubles, clock.clear)
      ensures var e := Summary(config.doubles, config.names[k], old(aggregates[k].State()), clock.read);
        && EventOk(e) && pos == start + |EventBytes(e)|
        && buffer[..] == Overwritten(old(buffer[..]), start, EventBytes(e))
        && start <= logCount <= logCount + 4 <= pos && buffer[logCount..logCount + 4] == Bytes(e.count, 4)
    {
      hide EventOk, Cleared, Overwritten, Cut, Record, Printable, Summary, Bytes, Keyword, EventBytes;
      ghost var e := Summary(config.doubles, config.names[k], aggregates[k].State(), clock.read);
      PrintedBytes(buffer[..], start, e);
      NamelessRecord(config.doubles, config.names[k], aggregates[k].State(), clock.read);
      pos := Copy(buffer, start, LOGA);
      pos := CopyString(buffer, pos, config.names[k]);
      logCount := pos;
      pos := aggregates[k].SerializeNClear(buffer, pos, clock.read, clock.clear);
    }

    /** One turn of the loop; `clock` is read twice. */
    method VisitNext(buffer: array<Byte>, start: nat, clock: Readings) returns (pos: nat)
      requires Valid() && serializeNext < |aggregates| && start + 64 <= buffer.Length
      requires Printable(View().stats[serializeNext], clock.read)
      modifies buffer, this`serializeNext, aggregates[serializeNext]
      ensures Valid()
      ensures var was := old(View());
        var e := SummaryAt(config, was, was.next, clock.read);
        && View() == Profile(was.stats[was.next := Cleared(config.doubles, clock.clear)], was.table, was.next + 1)
        && EventsOk(IfCounted(e))
        && pos == start + |AllEventBytes(IfCounted(e))| <= start + 64
        && buffer[..pos] == old(buffer[..start]) + AllEventBytes(IfCounted(e))
      ensures forall i :: start + 64 <= i < buffer.Length ==> buffer[i] == old(buffer[i])
    {
      hide ProfileOk, SummaryAt, Overwritten, Printable, Summary, EventBytes, AllEventBytes, Cleared, Bytes, Value, IfCounted;
      ghost var e := SummaryAt(config, View(), serializeNext, clock.read);
      CountedBytes(e);
      ZeroReadBack(host, e.count);
      OverwrittenParts(buffer[..], start, EventBytes(e));
      var logCount: nat;
      pos, logCount := PrintAggregate(buffer, start, serializeNext, clock);
      serializeNext := serializeNext + 1;
      if Value(host, buffer[logCount..logCount + 4]) == 0 {
        pos := start;
      }
    }

    method GatherNSerialize(buffer: array<Byte>, size: nat, clock: seq<Readings>) returns (end: nat, more: bool)
      requires 128 <= size <= buffer.Length
      requires Valid() && Ready(config, View(), clock)
      modifies buffer, this`serializeNext, aggregates, senderLogger.senders
      ensures Valid() && View() == Visiting(config, old(View()), CallVisits(config, old(View()), size, clock), clock)
      ensures end <= size && buffer[..end] == CallPacket(config, old(View()), size, clock)
      ensures forall i :: size <= i < buffer.Length ==> buffer[i] == old(buffer[i])
      ensures more == (serializeNext != |aggregates|)
    {
      ghost var p, n := View(), 0;
      hide *;
      CallStarts(config, p, size, clock);
      end := PrintHeader(buffer);
      while end <= size - 64 && serializeNext != |aggregates|
        invariant Valid() && serializeNext <= |aggregates| && end <= size
        invariant InCall(config, p, size, clock, n, View(), buffer[..end])
        invariant forall i :: size <= i < buffer.Length ==> buffer[i] == old(buffer[i])
        decreases |aggregates| - serializeNext
      {
        CallGoesOn(config, p, size, clock, n, View(), buffer[..end]);
        end := VisitNext(buffer, end, clock[serializeNext]);
        n := n + 1;
      }
      CallEnds(config, p, size, clock, n, View(), buffer[..end]);
      more := serializeNext != |aggregates|;
    }
  }
}
