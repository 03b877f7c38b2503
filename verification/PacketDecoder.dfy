/** log_analyzer/src/packet_decoder.py.  Reading past the end of a packet is an IndexError;
    keywords are kept as bytes. */
module Decoder {
  import opened ByteOrder
  import opened Wire

  /** What a reader found and where it stopped, or the exception it raised. */
  datatype Read<T> = Ok(value: T, pos: nat) | IndexError | ValueError

  /** The decoded packet; `sender` and the event names still carry their tags. */
  datatype Report = Report(receiver: Text, sender: Text, events: seq<Event>)

  // ---------- what is read ----------

  function KeywordAt(packet: seq<Byte>, pos: nat): (r: Read<Text>)
    ensures r.Ok? ==> pos < r.pos <= |packet|
    decreases |packet| - pos
  {
    if pos >= |packet| then IndexError
    else if packet[pos] == 0 then Ok([], pos + 1)
    else
      Before([packet[pos]], KeywordAt(packet, pos + 1))
  }

  function NumberAt(packet: seq<Byte>, pos: nat, n: nat): (r: Read<nat>)
    ensures r.Ok? ==> r.pos == pos + n <= |packet|
  {
    if pos + n > |packet| then IndexError else Ok(Number(packet[pos..pos + n]), pos + n)
  }

  function EventAt(packet: seq<Byte>, pos: nat): (r: Read<Event>)
    ensures r.Ok? ==> pos < r.pos <= |packet|
    ensures !r.Ok? ==> r == IndexError
  {
    var name := KeywordAt(packet, pos);
    if !name.Ok? then IndexError else
      var count := NumberAt(packet, name.pos, 4);
      if !count.Ok? then IndexError else
        var time := NumberAt(packet, count.pos, 4);
        if !time.Ok? then IndexError else
          var min := NumberAt(packet, time.pos, 8);
          if !min.Ok? then IndexError else
            var max := NumberAt(packet, min.pos, 8);
            if !max.Ok? then IndexError else
              var avg := NumberAt(packet, max.pos, 8);
              if !avg.Ok? then IndexError else
                Ok(Event(name.value, count.value, time.value, min.value, max.value, avg.value), avg.pos)
  }

  function EventsAt(packet: seq<Byte>, pos: nat): (r: Read<seq<Event>>)
    decreases |packet| - pos
  {
    if pos >= |packet| then Ok([], pos) else
      var event := EventAt(packet, pos);
      if !event.Ok? then IndexError else Before([event.value], EventsAt(packet, event.pos))
  }

  function Four(packet: seq<Byte>, pos: nat): seq<Byte> {
    if pos >= |packet| then [] else if pos + 4 > |packet| then packet[pos..] else packet[pos..pos + 4]
  }

  function Decoded(packet: seq<Byte>): (r: Read<Report>)
  {
    if Four(packet, 0) != DGRP then ValueError else
      var receiver := KeywordAt(packet, 4);
      if !receiver.Ok? then IndexError else
        var sender := KeywordAt(packet, receiver.pos);
        if !sender.Ok? then IndexError else
          var events := if Four(packet, sender.pos) == DGRP then Ok([], sender.pos) else EventsAt(packet, sender.pos);
          if !events.Ok? then IndexError else
            Ok(Report(receiver.value, sender.value, events.value), events.pos)
  }

  /** What has been read already, in front of what the reader will find. */
  function Before<T>(read: seq<T>, r: Read<seq<T>>): (b: Read<seq<T>>)
    ensures read == [] ==> b == r
  {
    match r
    case Ok(rest, end) => assert [] + rest == rest; Ok(read + rest, end)
    case _ => r
  }

  lemma BeforeOne<T>(read: seq<T>, x: T, r: Read<seq<T>>)
    ensures Before(read, Before([x], r)) == Before(read + [x], r)
  {
    if r.Ok? {
      assert read + ([x] + r.value) == (read + [x]) + r.value;
    }
  }

  // ---------- the loops ----------

  method GetKeyword(packet: seq<Byte>, start: nat) returns (r: Read<Text>)
    ensures r == KeywordAt(packet, start)
  {
    var keyword: Text := [];
    var pos := start;
    while pos < |packet| && packet[pos] != 0
      invariant start <= pos
      invariant KeywordAt(packet, start) == Before(keyword, KeywordAt(packet, pos))
      decreases |packet| - pos
    {
      BeforeOne(keyword, packet[pos], KeywordAt(packet, pos + 1));
      keyword := keyword + [packet[pos]];
      pos := pos + 1;
    }
    assert keyword + [] == keyword;
    r := if pos >= |packet| then IndexError else Ok(keyword, pos + 1);
  }

  method GetIntVal(packet: seq<Byte>, pos: nat) returns (r: Read<nat>)
    ensures r == NumberAt(packet, pos, 4)
  {
    var ret: seq<Byte> := [];
    for i := 0 to 4
      invariant pos + i <= |packet| || i == 0
      invariant i > 0 ==> ret == packet[pos..pos + i]
      invariant i == 0 ==> ret == []
    {
      if pos + i >= |packet| {
        return IndexError;
      }
      ret := ret + [packet[pos + i]];
    }
    r := Ok(Number(ret), pos + 4);
  }

  /** struct.unpack reads the bytes in host order, so they are collected in that order. */
  method GetFloatVal(packet: seq<Byte>, pos: nat, host: Host) returns (r: Read<nat>)
    ensures r == NumberAt(packet, pos, 8)
  {
    var ret: seq<Byte> := [];
    for i := 0 to 8
      invariant |ret| == i
      invariant i > 0 && host == LittleEndian ==> pos + 8 <= |packet|
      invariant i > 0 && host == BigEndian ==> pos + i <= |packet|
      invariant forall j :: 0 <= j < i ==> ret[j] == packet[if host == LittleEndian then pos + (7 - j) else pos + j]
    {
      var at := if host == LittleEndian then pos + (7 - i) else pos + i;
      if at >= |packet| {
        return IndexError;
      }
      ret := ret + [packet[at]];
    }
    if host == LittleEndian {
      assert Reverse(ret) == packet[pos..pos + 8];
    } else {
      assert ret == packet[pos..pos + 8];
    }
    r := Ok(Value(host, ret), pos + 8);
  }

  method GetEvent(packet: seq<Byte>, pos: nat, host: Host) returns (r: Read<Event>)
    ensures r == EventAt(packet, pos)
  {
    var name := GetKeyword(packet, pos);
    if !name.Ok? { return IndexError; }
    var count := GetIntVal(packet, name.pos);
    if !count.Ok? { return IndexError; }
    var time := GetIntVal(packet, count.pos);
    if !time.Ok? { return IndexError; }
    var min := GetFloatVal(packet, time.pos, host);
    if !min.Ok? { return IndexError; }
    var max := GetFloatVal(packet, min.pos, host);
    if !max.Ok? { return IndexError; }
    var avg := GetFloatVal(packet, max.pos, host);
    if !avg.Ok? { return IndexError; }
    r := Ok(Event(name.value, count.value, time.value, min.value, max.value, avg.value), avg.pos);
  }

  method DecodePacket(packet: seq<Byte>, host: Host) returns (r: Read<Report>)
    ensures r == Decoded(packet)
  {
    if Four(packet, 0) != DGRP { return ValueError; }
    var receiver := GetKeyword(packet, 4);
    if !receiver.Ok? { return IndexError; }
    var sender := GetKeyword(packet, receiver.pos);
    if !sender.Ok? { return IndexError; }
    var pos := sender.pos;
    var events: seq<Event> := [];
    var correctPacket := Four(packet, pos) == DGRP;
    while !correctPacket && pos < |packet|
      invariant correctPacket ==> pos == sender.pos && events == []
      invariant !correctPacket ==> EventsAt(packet, sender.pos) == Before(events, EventsAt(packet, pos))
      decreases |packet| - pos
    {
      var event := GetEvent(packet, pos, host);
      if !event.Ok? { return IndexError; }
      BeforeOne(events, event.value, EventsAt(packet, event.pos));
      events := events + [event.value];
      pos := event.pos;
    }
    assert events + [] == events;
    r := Ok(Report(receiver.value, sender.value, events), pos);
  }

  // ---------- reading back what was printed ----------

  /** `b` stands in the packet at `pos`. */
  ghost predicate Has(packet: seq<Byte>, pos: nat, b: seq<Byte>) {
    pos + |b| <= |packet| && packet[pos..pos + |b|] == b
  }

  lemma HasParts(packet: seq<Byte>, pos: nat, a: seq<Byte>, b: seq<Byte>)
    requires Has(packet, pos, a + b)
    ensures Has(packet, pos, a) && Has(packet, pos + |a|, b)
  {
    assert packet[pos..pos + |a|] == (a + b)[..|a|];
    assert packet[pos + |a|..pos + |a + b|] == (a + b)[|a|..];
  }

  lemma {:induction false} KeywordRead(packet: seq<Byte>, pos: nat, k: Text)
    requires NulFree(k) && Has(packet, pos, k + [0])
    ensures KeywordAt(packet, pos) == Ok(k, pos + |k| + 1)
    decreases |k|
  {
    if k == [] {
      assert packet[pos] == packet[pos..pos + 1][0];
    } else {
      assert k + [0] == [k[0]] + (k[1..] + [0]);
      HasParts(packet, pos, [k[0]], k[1..] + [0]);
      assert packet[pos] == packet[pos..pos + 1][0] == k[0];
      assert k[0] in k;
      KeywordRead(packet, pos + 1, k[1..]);
      assert [k[0]] + k[1..] == k;
    }
  }

  lemma NumberRead(packet: seq<Byte>, pos: nat, v: nat, n: nat)
    requires v < Pow256(n) && Has(packet, pos, Bytes(v, n))
    ensures NumberAt(packet, pos, n) == Ok(v, pos + n)
  {
    NumberOfBytes(v, n);
  }

  /** An event as the decoder names it. */
  function Tagged(e: Event): Event {
    e.(name := LOGA + Cut(e.name))
  }

  function AllTagged(events: seq<Event>): (r: seq<Event>)
    ensures |r| == |events|
    ensures forall i :: 0 <= i < |events| ==> r[i] == Tagged(events[i])
  {
    seq(|events|, i requires 0 <= i < |events| => Tagged(events[i]))
  }

  lemma TaggedIsNulFree(tag: Text, name: Text)
    requires NulFree(tag) && NulFree(name)
    ensures NulFree(tag + Cut(name))
  {
  }

  /** The five numbers of a record, one after the other. */
  lemma RecordParts(packet: seq<Byte>, pos: nat, e: Event)
    requires EventOk(e) && Has(packet, pos, Record(e))
    ensures Has(packet, pos, Bytes(e.count, 4)) && Has(packet, pos + 4, Bytes(e.time, 4))
    ensures Has(packet, pos + 8, Bytes(e.min, 8)) && Has(packet, pos + 16, Bytes(e.max, 8)) && Has(packet, pos + 24, Bytes(e.avg, 8))
  {
    hide Pow256;
    var c, t, mi, ma, av := Bytes(e.count, 4), Bytes(e.time, 4), Bytes(e.min, 8), Bytes(e.max, 8), Bytes(e.avg, 8);
    hide Has, Bytes;
    HasParts(packet, pos, c + t + mi + ma, av);
    HasParts(packet, pos, c + t + mi, ma);
    HasParts(packet, pos, c + t, mi);
    HasParts(packet, pos, c, t);
  }

  lemma EventRead(packet: seq<Byte>, pos: nat, e: Event)
    requires EventOk(e) && Has(packet, pos, EventBytes(e))
    ensures EventAt(packet, pos) == Ok(Tagged(e), pos + |EventBytes(e)|)
  {
    hide Pow256, Has, Bytes, KeywordAt, NumberAt;
    var k := LOGA + Cut(e.name);
    HasParts(packet, pos, k + [0], Record(e));
    TaggedIsNulFree(LOGA, e.name);
    KeywordRead(packet, pos, k);
    var p := pos + |k| + 1;
    RecordParts(packet, p, e);
    NumberRead(packet, p, e.count, 4);
    NumberRead(packet, p + 4, e.time, 4);
    NumberRead(packet, p + 8, e.min, 8);
    NumberRead(packet, p + 16, e.max, 8);
    NumberRead(packet, p + 24, e.avg, 8);
  }

  lemma EventBytesNotEmpty(e: Event)
    requires EventOk(e)
    ensures |EventBytes(e)| > 0
  {
  }

  lemma {:induction false} EventsRead(packet: seq<Byte>, pos: nat, events: seq<Event>)
    requires EventsOk(events)
    requires Has(packet, pos, AllEventBytes(events)) && pos + |AllEventBytes(events)| == |packet|
    ensures EventsAt(packet, pos) == Ok(AllTagged(events), |packet|)
    decreases |events|
  {
    hide Pow256, EventOk, Has, EventAt, EventBytes, Tagged;
    if events == [] {
    } else {
      var b, rest := EventBytes(events[0]), AllEventBytes(events[1..]);
      HasParts(packet, pos, b, rest);
      EventRead(packet, pos, events[0]);
      EventBytesNotEmpty(events[0]);
      EventsRead(packet, pos + |b|, events[1..]);
      assert AllTagged(events) == [Tagged(events[0])] + AllTagged(events[1..]);
    }
  }

  /** The aggregates do not start like a packet. */
  lemma NotAHeader(packet: seq<Byte>, pos: nat, events: seq<Event>)
    requires EventsOk(events)
    requires Has(packet, pos, AllEventBytes(events)) && pos + |AllEventBytes(events)| == |packet|
    ensures Four(packet, pos) != DGRP
  {
    hide EventBytes, EventOk;
    if events != [] {
      var b := EventBytes(events[0]);
      EventStart(events[0]);
      HasParts(packet, pos, b, AllEventBytes(events[1..]));
      assert packet[pos] == packet[pos..pos + |b|][0];
    }
  }

  lemma EventStart(e: Event)
    requires EventOk(e)
    ensures EventBytes(e) != [] && EventBytes(e)[0] == LOGA[0]
  {
    hide Record;
  }

  /** The group keyword at the start of a packet is read back. */
  lemma GroupRead(group: Text, tail: seq<Byte>)
    requires NulFree(group)
    ensures var packet := Keyword(DGRP, group) + tail;
      && Four(packet, 0) == DGRP
      && KeywordAt(packet, 4) == Ok(Cut(group), 5 + |Cut(group)|)
      && Has(packet, 5 + |Cut(group)|, tail)
  {
    var packet := Keyword(DGRP, group) + tail;
    assert packet == DGRP + ((Cut(group) + [0]) + tail);
    assert Has(packet, 0, DGRP + ((Cut(group) + [0]) + tail));
    HasParts(packet, 0, DGRP, (Cut(group) + [0]) + tail);
    HasParts(packet, 4, Cut(group) + [0], tail);
    TaggedIsNulFree([], group);
    assert [] + Cut(group) == Cut(group);
    KeywordRead(packet, 4, Cut(group));
  }

  /** The sender keyword is read back, wherever it stands. */
  lemma SenderRead(packet: seq<Byte>, pos: nat, sender: Text, tail: seq<Byte>)
    requires NulFree(sender) && Has(packet, pos, Keyword(SEND, sender) + tail)
    ensures KeywordAt(packet, pos) == Ok(SEND + Cut(sender), pos + 5 + |Cut(sender)|)
    ensures Has(packet, pos + 5 + |Cut(sender)|, tail)
  {
    hide Has, KeywordAt;
    HasParts(packet, pos, Keyword(SEND, sender), tail);
    TaggedIsNulFree(SEND, sender);
    KeywordRead(packet, pos, SEND + Cut(sender));
  }

  /** The parts of a packet, put together. */
  lemma Assembled(packet: seq<Byte>, receiver: Text, sender: Text, events: seq<Event>, p: nat, q: nat)
    requires Four(packet, 0) == DGRP && Four(packet, q) != DGRP
    requires KeywordAt(packet, 4) == Ok(receiver, p) && KeywordAt(packet, p) == Ok(sender, q)
    requires EventsAt(packet, q) == Ok(events, |packet|)
    ensures Decoded(packet) == Ok(Report(receiver, sender, events), |packet|)
  {
    hide Four, KeywordAt, EventsAt;
  }

  lemma HeadWithSender(group: Text, sender: Text, printed: seq<Byte>)
    ensures var packet := Head(group, Sender(sender)) + printed;
      && packet == Keyword(DGRP, group) + (Keyword(SEND, sender) + printed)
      && |packet| == 10 + |Cut(group)| + |Cut(sender)| + |printed|
  {
  }

  lemma NamesRead(packet: seq<Byte>, group: Text, sender: Text, printed: seq<Byte>)
    requires NulFree(group) && NulFree(sender)
    requires packet == Head(group, Sender(sender)) + printed
    ensures var p, q := 5 + |Cut(group)|, 10 + |Cut(group)| + |Cut(sender)|;
      && Four(packet, 0) == DGRP
      && KeywordAt(packet, 4) == Ok(Cut(group), p)
      && KeywordAt(packet, p) == Ok(SEND + Cut(sender), q)
      && Has(packet, q, printed) && |packet| == q + |printed|
  {
    HeadWithSender(group, sender, printed);
    hide *;
    GroupRead(group, Keyword(SEND, sender) + printed);
    SenderRead(packet, 5 + |Cut(group)|, sender, printed);
  }

  /** Print/parse round trip: decoding a packet that carries a sender gives back the group and the
      sender, cut to 27 characters, and the printed aggregates in order with the same numbers. */
  lemma RoundTrip(packet: seq<Byte>, group: Text, sender: Text, events: seq<Event>)
    requires NulFree(group) && NulFree(sender) && EventsOk(events)
    requires packet == Head(group, Sender(sender)) + AllEventBytes(events)
    ensures Decoded(packet) == Ok(Report(Cut(group), SEND + Cut(sender), AllTagged(events)), |packet|)
  {
    hide *;
    var printed := AllEventBytes(events);
    NamesRead(packet, group, sender, printed);
    var p, q := 5 + |Cut(group)|, 10 + |Cut(group)| + |Cut(sender)|;
    EventsRead(packet, q, events);
    NotAHeader(packet, q, events);
    Assembled(packet, Cut(group), SEND + Cut(sender), AllTagged(events), p, q);
  }

  /** A later packet of a pass has no sender, and the decoder never reports one from it: what it
      takes for the sender, if it decodes the packet at all, is the first aggregate's name. */
  lemma ContinuationHasNoSender(group: Text, events: seq<Event>)
    requires NulFree(group) && EventsOk(events)
    ensures var r := Decoded(Head(group, NoSender) + AllEventBytes(events));
      r.Ok? ==> events != [] && r.value.sender == LOGA + Cut(events[0].name)
  {
    hide *;
    NoSenderHead(group);
    GroupRead(group, AllEventBytes(events));
    var packet, pos := Head(group, NoSender) + AllEventBytes(events), 5 + |Cut(group)|;
    FirstKeyword(packet, pos, events);
    SecondKeyword(packet, pos);
  }

  lemma NoSenderHead(group: Text)
    ensures Head(group, NoSender) == Keyword(DGRP, group) && |Head(group, NoSender)| == 5 + |Cut(group)|
  {
  }

  lemma FirstKeyword(packet: seq<Byte>, pos: nat, events: seq<Event>)
    requires EventsOk(events) && Has(packet, pos, AllEventBytes(events)) && pos + |AllEventBytes(events)| == |packet|
    ensures KeywordAt(packet, pos).Ok? ==> events != [] && KeywordAt(packet, pos).value == LOGA + Cut(events[0].name)
  {
    hide Has, EventOk, Record;
    if events != [] {
      var k := LOGA + Cut(events[0].name);
      HasParts(packet, pos, EventBytes(events[0]), AllEventBytes(events[1..]));
      HasParts(packet, pos, k + [0], Record(events[0]));
      NameIsNulFree(events[0]);
      TaggedIsNulFree(LOGA, events[0].name);
      KeywordRead(packet, pos, k);
    }
  }

  lemma NameIsNulFree(e: Event)
    requires EventOk(e)
    ensures NulFree(e.name) && NulFree(LOGA)
  {
  }

  /** Whatever comes after the group is taken for the sender. */
  lemma SecondKeyword(packet: seq<Byte>, pos: nat)
    requires KeywordAt(packet, 4).Ok? && KeywordAt(packet, 4).pos == pos
    ensures Decoded(packet).Ok? ==> KeywordAt(packet, pos).Ok? && Decoded(packet).value.sender == KeywordAt(packet, pos).value
  {
    hide KeywordAt, EventsAt, Four;
  }

  lemma TagTells(name: Text)
    ensures SEND <= SEND + name && !(SEND <= LOGA + name)
  {
    assert (LOGA + name)[0] == 76;
  }

  /** A printed packet decodes to a report with a sender if and only if it carries one, and then to
      that sender. */
  lemma SenderDecodedIff(packet: seq<Byte>, group: Text, sender: Sender, events: seq<Event>)
    requires NulFree(group) && (sender.Sender? ==> NulFree(sender.name)) && EventsOk(events)
    requires packet == Head(group, sender) + AllEventBytes(events)
    ensures Decoded(packet).Ok? && SEND <= Decoded(packet).value.sender <==> sender.Sender?
    ensures sender.Sender? ==>
      Decoded(packet) == Ok(Report(Cut(group), SEND + Cut(sender.name), AllTagged(events)), |packet|)
  {
    hide Decoded, Head, Cut, EventsOk, AllEventBytes, NulFree;
    TagTells(if sender.Sender? then Cut(sender.name) else if events == [] then [] else Cut(events[0].name));
    if sender.Sender? {
      RoundTrip(packet, group, sender.name, events);
    } else {
      ContinuationHasNoSender(group, events);
    }
  }

  // ---------- any packet ----------

  /** Names of at most 27 characters come back as they are. */
  lemma ShortNamesComeBack(packet: seq<Byte>, group: Text, sender: Text, events: seq<Event>)
    requires NulFree(group) && NulFree(sender) && EventsOk(events)
    requires |group| <= 27 && |sender| <= 27 && forall i :: 0 <= i < |events| ==> |events[i].name| <= 27
    requires packet == Head(group, Sender(sender)) + AllEventBytes(events)
    ensures Decoded(packet).Ok?
    ensures var r := Decoded(packet).value;
      && r.receiver == group && r.sender == SEND + sender && |r.events| == |events|
      && forall i :: 0 <= i < |events| ==> r.events[i] == events[i].(name := LOGA + events[i].name)
  {
    hide Head, Decoded, EventOk;
    RoundTrip(packet, group, sender, events);
    CutShort(group);
    CutShort(sender);
    forall i | 0 <= i < |events| ensures Cut(events[i].name) == events[i].name {
      CutShort(events[i].name);
    }
    hide Cut;
  }

  lemma CutShort(t: Text)
    requires |t| <= 27
    ensures Cut(t) == t
  {
  }

  /** A packet is refused as such exactly if it does not start with DGRP. */
  lemma RefusedIff(packet: seq<Byte>)
    ensures Decoded(packet) == ValueError <==> !(['D' as int, 'G' as int, 'R' as int, 'P' as int] <= packet)
  {
    hide KeywordAt, EventsAt;
    if |packet| >= 4 {
      assert packet[0..4] == packet[..4];
    }
    assert DGRP <= packet <==> Four(packet, 0) == DGRP;
  }

  /** The bytes an event is read from. */
  ghost function RawEvent(e: Event): seq<Byte>
    requires EventOk(e)
  {
    e.name + [0] + Record(e)
  }

  ghost function RawEvents(events: seq<Event>): seq<Byte>
    requires EventsOk(events)
  {
    if events == [] then [] else RawEvent(events[0]) + RawEvents(events[1..])
  }

  /** What a keyword read successfully leaves in the packet behind it. */
  lemma {:induction false} KeywordStands(packet: seq<Byte>, pos: nat)
    ensures KeywordAt(packet, pos).Ok? ==>
      var r := KeywordAt(packet, pos);
      NulFree(r.value) && r.pos == pos + |r.value| + 1 && Has(packet, pos, r.value + [0])
    ensures KeywordAt(packet, pos).Ok? || KeywordAt(packet, pos) == IndexError
    decreases |packet| - pos
  {
    if pos >= |packet| {
    } else if packet[pos] == 0 {
      assert packet[pos..pos + 1] == [0] + [] == [] + [0];
    } else {
      KeywordStands(packet, pos + 1);
      var rest := KeywordAt(packet, pos + 1);
      if rest.Ok? {
        var r := KeywordAt(packet, pos);
        assert r.value == [packet[pos]] + rest.value;
        assert packet[pos..pos + |r.value + [0]|] == [packet[pos]] + packet[pos + 1..pos + 1 + |rest.value + [0]|];
        assert [packet[pos]] + (rest.value + [0]) == r.value + [0];
      }
    }
  }

  /** No keyword is found exactly if there is no NUL from there on. */
  lemma {:induction false} KeywordMissing(packet: seq<Byte>, pos: nat)
    ensures KeywordAt(packet, pos) == IndexError <==> forall i :: pos <= i < |packet| ==> packet[i] != 0
    decreases |packet| - pos
  {
    if pos >= |packet| || packet[pos] == 0 {
    } else {
      KeywordMissing(packet, pos + 1);
      assert KeywordAt(packet, pos) == IndexError <==> KeywordAt(packet, pos + 1) == IndexError;
    }
  }

  lemma HasJoined(packet: seq<Byte>, pos: nat, a: seq<Byte>, b: seq<Byte>)
    requires Has(packet, pos, a) && Has(packet, pos + |a|, b)
    ensures Has(packet, pos, a + b)
  {
    assert packet[pos..pos + |a + b|] == packet[pos..pos + |a|] + packet[pos + |a|..pos + |a| + |b|];
  }

  lemma NumberStands(packet: seq<Byte>, pos: nat, n: nat)
    ensures NumberAt(packet, pos, n).Ok? ==>
      var r := NumberAt(packet, pos, n);
      r.value < Pow256(n) && r.pos == pos + n && Has(packet, pos, Bytes(r.value, n))
  {
    hide Bytes, Number, Pow256;
    if pos + n <= |packet| {
      BytesOfNumber(packet[pos..pos + n]);
    }
  }

  lemma EventStands(packet: seq<Byte>, pos: nat)
    requires EventAt(packet, pos).Ok?
    ensures var r := EventAt(packet, pos);
      EventOk(r.value) && r.pos == pos + |RawEvent(r.value)| && Has(packet, pos, RawEvent(r.value))
  {
    hide KeywordAt, NumberAt, Pow256, Bytes, Has;
    var r := EventAt(packet, pos);
    var e := r.value;
    KeywordStands(packet, pos);
    var p := pos + |e.name| + 1;
    NumberStands(packet, p, 4);
    NumberStands(packet, p + 4, 4);
    NumberStands(packet, p + 8, 8);
    NumberStands(packet, p + 16, 8);
    NumberStands(packet, p + 24, 8);
    HasJoined(packet, p, Bytes(e.count, 4), Bytes(e.time, 4));
    HasJoined(packet, p, Bytes(e.count, 4) + Bytes(e.time, 4), Bytes(e.min, 8));
    HasJoined(packet, p, Bytes(e.count, 4) + Bytes(e.time, 4) + Bytes(e.min, 8), Bytes(e.max, 8));
    HasJoined(packet, p, Bytes(e.count, 4) + Bytes(e.time, 4) + Bytes(e.min, 8) + Bytes(e.max, 8), Bytes(e.avg, 8));
    HasJoined(packet, pos, e.name + [0], Record(e));
  }

  lemma {:induction false} EventsStand(packet: seq<Byte>, pos: nat)
    requires pos <= |packet| && EventsAt(packet, pos).Ok?
    ensures var r := EventsAt(packet, pos);
      EventsOk(r.value) && r.pos == |packet| == pos + |RawEvents(r.value)| && Has(packet, pos, RawEvents(r.value))
    decreases |packet| - pos
  {
    hide EventAt, EventOk, RawEvent;
    if pos == |packet| {
      assert packet[pos..pos] == [];
    } else {
      var event := EventAt(packet, pos);
      EventStands(packet, pos);
      EventsStand(packet, event.pos);
      var r, rest := EventsAt(packet, pos), EventsAt(packet, event.pos);
      assert r.value == [event.value] + rest.value;
      assert r.value[1..] == rest.value;
      HasJoined(packet, pos, RawEvent(event.value), RawEvents(rest.value));
    }
  }

  lemma NoEventsOk()
    ensures EventsOk([])
  {
  }

  /** What was read of a packet that is accepted, and where. */
  lemma AcceptedParts(packet: seq<Byte>)
    requires Decoded(packet).Ok?
    ensures var r := Decoded(packet).value;
      var p := 5 + |r.receiver|;
      var q := p + |r.sender| + 1;
      && Has(packet, 0, DGRP)
      && KeywordAt(packet, 4) == Ok(r.receiver, p) && KeywordAt(packet, p) == Ok(r.sender, q) && q <= |packet|
      && if Four(packet, q) == DGRP then r.events == [] else EventsAt(packet, q).Ok? && EventsAt(packet, q).value == r.events
  {
    hide Four, KeywordAt, EventsAt, NulFree, Has;
    var receiver := KeywordAt(packet, 4);
    KeywordStands(packet, 4);
    KeywordStands(packet, receiver.pos);
    FourStands(packet);
  }

  /** Whatever packet is accepted: it starts with DGRP, then come a NUL-terminated receiver and a
      NUL-terminated sender, and then, unless another DGRP follows, nothing but the events of the
      report, byte for byte. */
  lemma AcceptedStands(packet: seq<Byte>)
    requires Decoded(packet).Ok?
    ensures var r := Decoded(packet).value;
      var head := DGRP + (r.receiver + [0]) + (r.sender + [0]);
      && NulFree(r.receiver) && NulFree(r.sender) && EventsOk(r.events)
      && head <= packet
      && if Four(packet, |head|) == DGRP then r.events == [] else packet == head + RawEvents(r.events)
  {
    hide Decoded, Four, KeywordAt, EventsAt, RawEvents, EventsOk, NulFree, Has;
    var r := Decoded(packet).value;
    var head := DGRP + (r.receiver + [0]) + (r.sender + [0]);
    var p := 5 + |r.receiver|;
    var q := p + |r.sender| + 1;
    AcceptedParts(packet);
    KeywordStands(packet, 4);
    KeywordStands(packet, p);
    HasJoined(packet, 0, DGRP, r.receiver + [0]);
    HasJoined(packet, 0, DGRP + (r.receiver + [0]), r.sender + [0]);
    HasStart(packet, head);
    assert |head| == q;
    if Four(packet, q) == DGRP {
      NoEventsOk();
    } else {
      EventsStand(packet, |head|);
      HasJoined(packet, 0, head, RawEvents(r.events));
      HasStart(packet, head + RawEvents(r.events));
    }
  }

  lemma FourStands(packet: seq<Byte>)
    requires Four(packet, 0) == DGRP
    ensures Has(packet, 0, DGRP)
  {
    assert |DGRP| == 4;
  }

  lemma HasStart(packet: seq<Byte>, b: seq<Byte>)
    requires Has(packet, 0, b)
    ensures b <= packet && (|b| == |packet| ==> b == packet)
  {
    assert packet[0..|b|] == packet[..|b|];
  }

  lemma RawEventRead(packet: seq<Byte>, pos: nat, e: Event)
    requires EventOk(e) && Has(packet, pos, RawEvent(e))
    ensures EventAt(packet, pos) == Ok(e, pos + |RawEvent(e)|)
  {
    hide Pow256, Has, Bytes, KeywordAt, NumberAt;
    HasParts(packet, pos, e.name + [0], Record(e));
    KeywordRead(packet, pos, e.name);
    var p := pos + |e.name| + 1;
    RecordParts(packet, p, e);
    NumberRead(packet, p, e.count, 4);
    NumberRead(packet, p + 4, e.time, 4);
    NumberRead(packet, p + 8, e.min, 8);
    NumberRead(packet, p + 16, e.max, 8);
    NumberRead(packet, p + 24, e.avg, 8);
  }

  lemma RawEventNotEmpty(e: Event)
    requires EventOk(e)
    ensures |RawEvent(e)| > 0
  {
  }

  lemma {:induction false} RawEventsRead(packet: seq<Byte>, pos: nat, events: seq<Event>)
    requires EventsOk(events)
    requires Has(packet, pos, RawEvents(events)) && pos + |RawEvents(events)| == |packet|
    ensures EventsAt(packet, pos) == Ok(events, |packet|)
    decreases |events|
  {
    hide Pow256, EventOk, Has, EventAt, RawEvent;
    if events == [] {
    } else {
      var b, rest := RawEvent(events[0]), RawEvents(events[1..]);
      HasParts(packet, pos, b, rest);
      RawEventRead(packet, pos, events[0]);
      RawEventNotEmpty(events[0]);
      RawEventsRead(packet, pos + |b|, events[1..]);
      assert events == [events[0]] + events[1..];
    }
  }

  lemma WholeHas(packet: seq<Byte>, receiver: Text, sender: Text, tail: seq<Byte>)
    requires packet == DGRP + (receiver + [0]) + (sender + [0]) + tail
    ensures Four(packet, 0) == DGRP
    ensures Has(packet, 4, receiver + [0]) && Has(packet, 5 + |receiver|, sender + [0])
    ensures Has(packet, 6 + |receiver| + |sender|, tail) && |packet| == 6 + |receiver| + |sender| + |tail|
  {
    var r, s := receiver + [0], sender + [0];
    assert packet == DGRP + (r + (s + tail));
    assert Has(packet, 0, DGRP + (r + (s + tail)));
    HasParts(packet, 0, DGRP, r + (s + tail));
    HasParts(packet, 4, r, s + tail);
    HasParts(packet, 5 + |receiver|, s, tail);
  }

  /** And the other way round: such a packet is accepted, whatever the names and the numbers, and
      nothing but these parts is reported. */
  lemma StandingIsAccepted(packet: seq<Byte>, receiver: Text, sender: Text, events: seq<Event>)
    requires NulFree(receiver) && NulFree(sender) && EventsOk(events)
    requires packet == DGRP + (receiver + [0]) + (sender + [0]) + RawEvents(events)
    requires Four(RawEvents(events), 0) != DGRP
    ensures Decoded(packet) == Ok(Report(receiver, sender, events), |packet|)
  {
    hide KeywordAt, EventsAt, RawEvents, EventsOk, NulFree, Has;
    var tail := RawEvents(events);
    WholeHas(packet, receiver, sender, tail);
    var p, q := 5 + |receiver|, 6 + |receiver| + |sender|;
    KeywordRead(packet, 4, receiver);
    KeywordRead(packet, p, sender);
    RawEventsRead(packet, q, events);
    assert Four(packet, q) != DGRP by { FourOfTail(packet, q, tail); }
    hide Four;
    Assembled(packet, receiver, sender, events, p, q);
  }

  lemma FourOfTail(packet: seq<Byte>, q: nat, tail: seq<Byte>)
    requires Has(packet, q, tail) && |packet| == q + |tail|
    ensures Four(packet, q) == Four(tail, 0)
  {
    assert packet[q..q + |tail|] == packet[q..];
    if |tail| >= 4 {
      assert packet[q..q + 4] == packet[q..q + |tail|][0..4];
    }
  }
}
