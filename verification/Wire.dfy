/** The packets of the profiler, on values: what src/ProfileData.cpp prints and what
    log_analyzer/src/packet_decoder.py reads. */
module Wire {
  import opened ByteOrder

  type Text = seq<Byte>

  const MAX_NAME_LENGTH: nat := 27

  const DGRP: Text := ['D' as int, 'G' as int, 'R' as int, 'P' as int]
  const SEND: Text := ['S' as int, 'E' as int, 'N' as int, 'D' as int]
  const LOGA: Text := ['L' as int, 'O' as int, 'G' as int, 'A' as int]

  /** A C string ends at its first NUL, so its text has none. */
  predicate NulFree(t: Text) {
    0 !in t
  }

  /** One serialized aggregate; the floating-point fields are their 8-byte patterns. */
  datatype Event = Event(name: Text, count: nat, time: nat, min: nat, max: nat, avg: nat)

  ghost predicate EventOk(e: Event) {
    && NulFree(e.name)
    && e.count < Pow256(4) && e.time < Pow256(4)
    && e.min < Pow256(8) && e.max < Pow256(8) && e.avg < Pow256(8)
  }

  ghost predicate EventsOk(events: seq<Event>) {
    forall i :: 0 <= i < |events| ==> EventOk(events[i])
  }

  // ---------- printing ----------

  /** The first 27 characters, or all there are. */
  function Cut(t: Text): (r: Text)
    ensures r <= t && |r| == if |t| <= MAX_NAME_LENGTH then |t| else MAX_NAME_LENGTH
  {
    if |t| > MAX_NAME_LENGTH then t[..MAX_NAME_LENGTH] else t
  }

  /** A tag and a name cut to 27 characters, with a closing NUL. */
  function Keyword(tag: Text, name: Text): (b: seq<Byte>)
    ensures |b| <= |tag| + MAX_NAME_LENGTH + 1
  {
    tag + Cut(name) + [0]
  }

  /** LogAggregate::Serialize. */
  ghost function Record(e: Event): (b: seq<Byte>)
    requires EventOk(e)
    ensures |b| == 32
  {
    Bytes(e.count, 4) + Bytes(e.time, 4) + Bytes(e.min, 8) + Bytes(e.max, 8) + Bytes(e.avg, 8)
  }

  /** Where the numbers of a record stand. */
  lemma RecordLayout(e: Event)
    requires EventOk(e)
    ensures Record(e)[0..4] == Bytes(e.count, 4) && Record(e)[4..8] == Bytes(e.time, 4)
    ensures Record(e)[8..16] == Bytes(e.min, 8) && Record(e)[16..24] == Bytes(e.max, 8) && Record(e)[24..32] == Bytes(e.avg, 8)
  {
    FiveParts(Bytes(e.count, 4), Bytes(e.time, 4), Bytes(e.min, 8), Bytes(e.max, 8), Bytes(e.avg, 8));
    hide Bytes, Pow256;
  }

  lemma FiveParts(a: seq<Byte>, b: seq<Byte>, c: seq<Byte>, d: seq<Byte>, e: seq<Byte>)
    requires |a| == |b| == 4 && |c| == |d| == |e| == 8
    ensures var all := a + b + c + d + e;
      all[0..4] == a && all[4..8] == b && all[8..16] == c && all[16..24] == d && all[24..32] == e
  {
    var abcd := a + b + c + d;
    assert abcd[0..4] == a && abcd[4..8] == b && abcd[8..16] == c && abcd[16..24] == d;
  }

  ghost function EventBytes(e: Event): (b: seq<Byte>)
    requires EventOk(e)
    ensures |b| <= 64
  {
    Keyword(LOGA, e.name) + Record(e)
  }

  ghost function AllEventBytes(events: seq<Event>): seq<Byte>
    requires EventsOk(events)
  {
    if events == [] then [] else EventBytes(events[0]) + AllEventBytes(events[1..])
  }

  datatype Sender = NoSender | Sender(name: Text)

  /** The part before the aggregates: the group and, in the first packet of a pass, the sender. */
  function Head(group: Text, sender: Sender): (b: seq<Byte>)
    ensures |b| <= 64
  {
    Keyword(DGRP, group) + if sender.Sender? then Keyword(SEND, sender.name) else []
  }

  /** The aggregates one call visits: as long as the next one is sure to fit. */
  ghost function Visited(limit: int, used: nat, events: seq<Event>): (n: nat)
    requires EventsOk(events)
    ensures n <= |events|
    decreases |events|
  {
    if used <= limit && events != [] then
      1 + Visited(limit, if events[0].count == 0 then used else used + |EventBytes(events[0])|, events[1..])
    else
      0
  }

  /** The aggregates that are not left out. */
  function NonEmpty(events: seq<Event>): (r: seq<Event>) {
    if events == [] then [] else IfCounted(events[0]) + NonEmpty(events[1..])
  }

  function IfCounted(e: Event): seq<Event> {
    if e.count == 0 then [] else [e]
  }

  /** Each aggregate that was logged into stands there as often as among all, the others do not; and
      it is the order of all (NonEmptyConcat). */
  lemma {:induction false} NonEmptyCounts(events: seq<Event>, e: Event)
    ensures multiset(NonEmpty(events))[e] == if e.count == 0 then 0 else multiset(events)[e]
  {
    if events == [] {
    } else {
      NonEmptyCounts(events[1..], e);
      assert events == [events[0]] + events[1..];
    }
  }

  lemma {:induction false} NonEmptyOk(events: seq<Event>)
    requires EventsOk(events)
    ensures EventsOk(NonEmpty(events))
  {
    if events == [] {
    } else {
      NonEmptyOk(events[1..]);
    }
  }

  lemma Associative<T>(x: seq<T>, y: seq<T>, z: seq<T>)
    ensures x + (y + z) == (x + y) + z
  {
  }

  lemma {:induction false} NonEmptyConcat(a: seq<Event>, b: seq<Event>)
    ensures NonEmpty(a + b) == NonEmpty(a) + NonEmpty(b)
  {
    hide IfCounted;
    if a == [] {
      assert a + b == b;
    } else {
      NonEmptyConcat(a[1..], b);
      assert (a + b)[1..] == a[1..] + b;
      Associative(IfCounted(a[0]), NonEmpty(a[1..]), NonEmpty(b));
    }
  }

  lemma NonEmptyOne(events: seq<Event>, e: Event)
    ensures NonEmpty(events + [e]) == NonEmpty(events) + IfCounted(e)
  {
    NonEmptyConcat(events, [e]);
    assert [e][1..] == [];
    assert NonEmpty([e]) == IfCounted(e);
  }

  /** How many aggregates one call of GatherNSerialize visits, `events` being those not yet
      visited in this pass. */
  ghost function Consumed(size: nat, group: Text, sender: Sender, events: seq<Event>): (n: nat)
    requires EventsOk(events)
    ensures n <= |events|
  {
    Visited(size - 64, |Head(group, sender)|, events)
  }

  /** The packet one call prints. */
  ghost function Packet(size: nat, group: Text, sender: Sender, events: seq<Event>): (b: seq<Byte>)
    requires EventsOk(events)
  {
    var n := Consumed(size, group, sender, events);
    NonEmptyOk(events[..n]);
    Head(group, sender) + AllEventBytes(NonEmpty(events[..n]))
  }

  // ---------- bounds and progress ----------

  lemma CountedLength(e: Event, rest: seq<Event>)
    requires EventOk(e) && EventsOk(rest)
    ensures EventsOk(IfCounted(e) + rest)
    ensures |AllEventBytes(IfCounted(e) + rest)| == |AllEventBytes(rest)| + if e.count == 0 then 0 else |EventBytes(e)|
  {
    hide EventBytes;
    if e.count == 0 {
      assert IfCounted(e) + rest == rest;
    } else {
      assert (IfCounted(e) + rest)[1..] == rest;
    }
  }

  lemma VisitedFirst(limit: int, used: nat, events: seq<Event>)
    requires EventsOk(events) && events != [] && used <= limit
    ensures Visited(limit, used, events) ==
            1 + Visited(limit, if events[0].count == 0 then used else used + |EventBytes(events[0])|, events[1..])
  {
  }

  lemma NothingVisited(limit: int, used: nat, events: seq<Event>)
    requires EventsOk(events) && (events == [] || used > limit)
    ensures Visited(limit, used, events) == 0
  {
  }

  lemma {:induction false} VisitedFits(limit: int, used: nat, events: seq<Event>)
    requires EventsOk(events)
    ensures var n := Visited(limit, used, events);
      && EventsOk(NonEmpty(events[..n]))
      && used + |AllEventBytes(NonEmpty(events[..n]))| <= if n == 0 then used else limit + 64
    decreases |events|
  {
    hide Visited, EventOk, EventBytes, IfCounted;
    if events == [] || used > limit {
      NothingVisited(limit, used, events);
      assert events[..0] == [];
    } else {
      VisitedFirst(limit, used, events);
      var n, e := Visited(limit, used, events), events[0];
      var used' := if e.count == 0 then used else used + |EventBytes(e)|;
      VisitedFits(limit, used', events[1..]);
      assert events[..n][1..] == events[1..][..n - 1];
      CountedLength(e, NonEmpty(events[1..][..n - 1]));
    }
  }

  /** In a buffer of 64 bytes or more, a packet never reaches past the end. */
  lemma PacketFits(size: nat, group: Text, sender: Sender, events: seq<Event>)
    requires EventsOk(events) && size >= 64
    ensures |Packet(size, group, sender, events)| <= size
  {
    hide EventsOk, Visited, Head, NonEmpty, AllEventBytes;
    VisitedFits(size - 64, |Head(group, sender)|, events);
  }

  /** A call makes progress exactly if what comes before the aggregates leaves 64 bytes free. */
  lemma ProgressIff(size: nat, group: Text, sender: Sender, events: seq<Event>)
    requires EventsOk(events) && events != []
    ensures Consumed(size, group, sender, events) >= 1 <==> |Head(group, sender)| + 64 <= size
  {
  }

  /** A buffer in which a packet without a sender has room for one aggregate. */
  predicate HasRoom(size: nat, group: Text) {
    |Keyword(DGRP, group)| + 64 <= size
  }

  lemma HeadRoom(size: nat, group: Text, sender: Sender)
    ensures |Head(group, NoSender)| == |Keyword(DGRP, group)| == 5 + |Cut(group)|
    ensures |Head(group, NoSender)| <= |Head(group, sender)|
    ensures size >= 128 ==> HasRoom(size, group) && |Head(group, sender)| + 64 <= size
    ensures HasRoom(size, group) ==> size >= 69
  {
  }

  // ---------- when a pass ends ----------

  /** The aggregates that `calls` calls of one pass leave unvisited, if no thread logs in between;
      every call but the first goes on without a sender.  After a first call, the pass is over
      when none is left. */
  ghost function Unvisited(size: nat, group: Text, sender: Sender, events: seq<Event>, calls: nat): (r: seq<Event>)
    requires EventsOk(events)
    decreases calls
  {
    if calls == 0 then events else
      Unvisited(size, group, NoSender, events[Consumed(size, group, sender, events)..], calls - 1)
  }

  lemma NextPass(size: nat, group: Text, sender: Sender, events: seq<Event>)
    requires EventsOk(events) && HasRoom(size, group)
    ensures var n := Consumed(size, group, sender, events);
      n == |events| || n > 0 || sender.Sender?
  {
    hide Consumed, Head;
    HeadRoom(size, group, sender);
    if events != [] {
      ProgressIff(size, group, sender, events);
    }
  }

  /** With room for an aggregate there are at most as many calls as aggregates, and one more if the
      sender leaves no room in the first. */
  lemma {:induction false} EndsInTime(size: nat, group: Text, sender: Sender, events: seq<Event>, calls: nat)
    requires EventsOk(events) && HasRoom(size, group)
    requires calls >= |events| + if sender.Sender? then 1 else 0
    ensures Unvisited(size, group, sender, events, calls) == []
    decreases calls
  {
    hide EventsOk, HasRoom, Consumed;
    if calls == 0 {
    } else {
      NextPass(size, group, sender, events);
      var n := Consumed(size, group, sender, events);
      StillOk(events, n);
      EndsInTime(size, group, NoSender, events[n..], calls - 1);
    }
  }

  lemma StillOk(events: seq<Event>, n: nat)
    requires EventsOk(events) && n <= |events|
    ensures EventsOk(events[n..])
  {
  }

  /** Without it, no call visits anything. */
  lemma {:induction false} NeverEnds(size: nat, group: Text, sender: Sender, events: seq<Event>, calls: nat)
    requires EventsOk(events) && events != [] && !HasRoom(size, group)
    ensures Unvisited(size, group, sender, events, calls) == events
    decreases calls
  {
    hide EventOk, Consumed, Head;
    if calls == 0 {
    } else {
      ProgressIff(size, group, sender, events);
      HeadRoom(size, group, sender);
      assert events[0..] == events;
      NeverEnds(size, group, NoSender, events, calls - 1);
    }
  }

  /** For any size and names: the calls of a pass come to an end exactly if there is no aggregate at
      all, or the group's name leaves 64 bytes free in a packet without a sender. */
  lemma PassEndsIff(size: nat, group: Text, sender: Sender, events: seq<Event>)
    requires EventsOk(events)
    ensures (exists calls: nat :: calls >= 1 && Unvisited(size, group, sender, events, calls) == []) <==>
            events == [] || |Keyword(DGRP, group)| + 64 <= size
  {
    hide EventOk, Keyword;
    if events != [] && !HasRoom(size, group) {
      forall calls: nat ensures Unvisited(size, group, sender, events, calls) != [] {
        NeverEnds(size, group, sender, events, calls);
      }
    } else if HasRoom(size, group) {
      EndsInTime(size, group, sender, events, |events| + 1);
    } else {
      assert Unvisited(size, group, sender, events, 1) == [];
    }
  }

  /** Buffers of 64 to 68 bytes, which ProfilerImpl accepts, are never enough, whatever the names. */
  lemma SmallBufferStalls(size: nat, group: Text, sender: Sender, events: seq<Event>)
    requires EventsOk(events) && events != [] && size < 69
    ensures forall calls: nat :: Unvisited(size, group, sender, events, calls) == events
  {
    HeadRoom(size, group, sender);
    forall calls: nat ensures Unvisited(size, group, sender, events, calls) == events {
      NeverEnds(size, group, sender, events, calls);
    }
  }

  // ---------- a whole pass ----------

  /** The packets of one pass, if no thread logs in between; the first carries the sender. */
  ghost function Pass(size: nat, group: Text, sender: Sender, events: seq<Event>): (packets: seq<seq<Byte>>)
    requires EventsOk(events) && HasRoom(size, group)
    decreases |events|, sender.Sender?
  {
    NextPass(size, group, sender, events);
    var n := Consumed(size, group, sender, events);
    [Packet(size, group, sender, events)] +
    if n == |events| then [] else Pass(size, group, NoSender, events[n..])
  }

  /** The aggregates printed in the packets of a pass, packet by packet. */
  ghost function PassEvents(size: nat, group: Text, sender: Sender, events: seq<Event>): (r: seq<seq<Event>>)
    requires EventsOk(events) && HasRoom(size, group)
    decreases |events|, sender.Sender?
  {
    NextPass(size, group, sender, events);
    var n := Consumed(size, group, sender, events);
    [NonEmpty(events[..n])] +
    if n == |events| then [] else PassEvents(size, group, NoSender, events[n..])
  }

  function Flatten<T>(s: seq<seq<T>>): seq<T> {
    if s == [] then [] else s[0] + Flatten(s[1..])
  }

  lemma FlattenNone<T>()
    ensures Flatten<T>([]) == []
  {
  }

  lemma {:induction false} FlattenAppend<T>(s: seq<seq<T>>, x: seq<T>)
    ensures Flatten(s + [x]) == Flatten(s) + x
  {
    if s == [] {
    } else {
      FlattenAppend(s[1..], x);
      assert (s + [x])[1..] == s[1..] + [x];
      assert s[0] + (Flatten(s[1..]) + x) == (s[0] + Flatten(s[1..])) + x;
    }
  }

  /** A pass prints each aggregate that is not empty exactly once, in order. */
  lemma {:induction false} PassPrintsAll(size: nat, group: Text, sender: Sender, events: seq<Event>)
    requires EventsOk(events) && HasRoom(size, group)
    ensures Flatten(PassEvents(size, group, sender, events)) == NonEmpty(events)
    decreases |events|, sender.Sender?
  {
    hide EventOk, Pass, PassEvents, NonEmpty, Consumed;
    var n := Consumed(size, group, sender, events);
    var all := PassEvents(size, group, sender, events);
    LaterPackets(size, group, sender, events);
    if n < |events| {
      PassPrintsAll(size, group, NoSender, events[n..]);
      NonEmptyConcat(events[..n], events[n..]);
      assert events == events[..n] + events[n..];
    } else {
      assert events[..n] == events;
      assert all[1..] == [];
    }
  }

  /** The packets of a pass are those of its calls: after as many calls as it has packets nothing is
      left, and not before. */
  lemma {:induction false} PassIsTheCalls(size: nat, group: Text, sender: Sender, events: seq<Event>, calls: nat)
    requires EventsOk(events) && HasRoom(size, group)
    requires 1 <= calls <= |Pass(size, group, sender, events)|
    ensures Unvisited(size, group, sender, events, calls) == [] <==> calls == |Pass(size, group, sender, events)|
    decreases calls
  {
    hide EventOk, Consumed, Packet;
    var n := Consumed(size, group, sender, events);
    if n < |events| {
      LaterPackets(size, group, sender, events);
      assert |Pass(size, group, sender, events)[1..]| == |Pass(size, group, sender, events)| - 1;
      if calls > 1 {
        PassIsTheCalls(size, group, NoSender, events[n..], calls - 1);
      }
    }
  }

  /** `b` is the group, the sender if there is one, and `share`, and fits the buffer. */
  ghost predicate Carries(size: nat, group: Text, sender: Sender, share: seq<Event>, b: seq<Byte>) {
    && EventsOk(share)
    && b == Head(group, sender) + AllEventBytes(share)
    && |b| <= size
  }

  lemma FirstPacket(size: nat, group: Text, sender: Sender, events: seq<Event>)
    requires EventsOk(events) && HasRoom(size, group)
    ensures Carries(size, group, sender, PassEvents(size, group, sender, events)[0], Pass(size, group, sender, events)[0])
  {
    PacketFits(size, group, sender, events);
    NonEmptyOk(events[..Consumed(size, group, sender, events)]);
  }

  lemma LaterPackets(size: nat, group: Text, sender: Sender, events: seq<Event>)
    requires EventsOk(events) && HasRoom(size, group)
    ensures var n := Consumed(size, group, sender, events);
      && PassEvents(size, group, sender, events) != [] && PassEvents(size, group, sender, events)[0] == NonEmpty(events[..n])
      && Pass(size, group, sender, events)[1..] == (if n == |events| then [] else Pass(size, group, NoSender, events[n..]))
      && PassEvents(size, group, sender, events)[1..] == (if n == |events| then [] else PassEvents(size, group, NoSender, events[n..]))
      && (n < |events| ==> n > 0 || sender.Sender?)
  {
    NextPass(size, group, sender, events);
  }

  /** Each packet carries the group, the sender if it is the first, and its share of the
      aggregates. */
  lemma {:induction false} PassPackets(size: nat, group: Text, sender: Sender, events: seq<Event>, i: nat)
    requires EventsOk(events) && HasRoom(size, group)
    requires i < |Pass(size, group, sender, events)|
    ensures i < |PassEvents(size, group, sender, events)|
    ensures Carries(size, group, if i == 0 then sender else NoSender,
                    PassEvents(size, group, sender, events)[i], Pass(size, group, sender, events)[i])
    decreases |events|, sender.Sender?
  {
    hide Carries, Consumed, Pow256, EventOk, Packet;
    if i == 0 {
      FirstPacket(size, group, sender, events);
    } else {
      LaterPackets(size, group, sender, events);
      var n := Consumed(size, group, sender, events);
      hide Pass, PassEvents;
      assert Pass(size, group, sender, events)[i] == Pass(size, group, sender, events)[1..][i - 1];
      PassPackets(size, group, NoSender, events[n..], i - 1);
      assert PassEvents(size, group, sender, events)[i] == PassEvents(size, group, sender, events)[1..][i - 1];
    }
  }
}
