/** Logging threads and the serializing thread of one ProfileData, step by step. A step is what
    happens under one lock: a value logged in one aggregate, a sender tracked, the sender table
    serialized and cleared (with the header of the call), one aggregate serialized and cleared.
    Beside the object's own state the system remembers what was logged, visited and sent. */
module Profiling {
  import opened ByteOrder
  import opened Wire
  import opened Aggregates
  import opened Senders
  import opened Profiles
  import opened Decoder

  /** The call of GatherNSerialize that is under way: what is in the buffer, the aggregates
      printed in it with their places in the map, and the aggregate at which it started. */
  datatype Call = Idle | Writing(sender: Sender, buf: seq<Byte>, kinds: seq<nat>, shown: seq<Event>, from: nat)

  /** A packet sent, with the aggregates printed in it. */
  datatype Part = Part(sender: Sender, kinds: seq<nat>, shown: seq<Event>, bytes: seq<Byte>)

  /** `logged`: for each event type all values ever logged, of which the first `taken` have been
      taken by visits; `tracked`: the senders tracked since the table was cleared; `visits`: the
      aggregates visited in this pass, as found; `sent`: the packets of this pass; `earlier`: those
      of all passes before. */
  datatype System = System(p: Profile, call: Call,
                           logged: seq<seq<real>>, taken: seq<nat>, tracked: seq<CString>,
                           visits: seq<Event>, sent: seq<Part>, earlier: seq<Part>)

  datatype Step =
    | LogValue(event: nat, value: real)
    | Track(name: CString)
    | StartCall
    | Visit(clock: Readings)
    | EndCall

  function Initial(c: Config, now: int): System {
    var n := |c.names|;
    System(Profile(seq(n, _ => Cleared(c.doubles, now)), Empty(), n), Idle,
           seq(n, _ => []), seq(n, _ => 0), [], [], [], [])
  }

  ghost predicate Enabled(c: Config, size: nat, s: System, step: Step)
    requires ProfileOk(c, s.p)
  {
    match step
    case LogValue(event, _) => event < |s.p.stats| && event < |s.logged|
    case Track(name) => NulFree(name.text)
    case StartCall => s.call.Idle?
    case Visit(clock) =>
      && s.call.Writing? && |s.call.buf| <= size - 64 && s.p.next < |s.p.stats|
      && s.p.next < |s.logged| && s.p.next < |s.taken|
      && Printable(s.p.stats[s.p.next], clock.read)
    case EndCall => s.call.Writing? && (|s.call.buf| > size - 64 || s.p.next == |s.p.stats|)
  }

  ghost function Apply(c: Config, size: nat, s: System, step: Step): System
    requires ProfileOk(c, s.p) && Enabled(c, size, s, step)
  {
    match step
    case LogValue(k, x) => LogStep(s, k, x)
    case Track(name) => TrackStep(s, name)
    case StartCall => StartStep(c, s)
    case Visit(clock) => VisitStep(c, s, clock)
    case EndCall => EndStep(s)
  }

  function LogStep(s: System, k: nat, x: real): System
    requires k < |s.p.stats| && k < |s.logged|
  {
    s.(p := s.p.(stats := s.p.stats[k := Logged(s.p.stats[k], x)]), logged := s.logged[k := s.logged[k] + [x]])
  }

  function TrackStep(s: System, name: CString): System {
    s.(p := s.p.(table := Tracked(s.p.table, name)), tracked := s.tracked + [name])
  }

  function StartStep(c: Config, s: System): System
    requires s.p.table != []
  {
    var p := s.p;
    var sender := NextSender(p);
    var call := Writing(sender, Head(c.group, sender), [], [], First(p));
    if p.next == |p.stats| then
      s.(p := Profile(p.stats, Empty(), 0), call := call, tracked := [], visits := [], sent := [], earlier := s.earlier + s.sent)
    else
      s.(call := call)
  }

  ghost function VisitStep(c: Config, s: System, clock: Readings): System
    requires ProfileOk(c, s.p) && s.call.Writing? && s.p.next < |s.p.stats|
    requires s.p.next < |s.logged| && s.p.next < |s.taken|
    requires Printable(s.p.stats[s.p.next], clock.read)
  {
    var k := s.p.next;
    var e := SummaryAt(c, s.p, k, clock.read);
    CountedBytes(e);
    s.(p := Profile(s.p.stats[k := Cleared(c.doubles, clock.clear)], s.p.table, k + 1),
       call := Writing(s.call.sender, s.call.buf + AllEventBytes(IfCounted(e)),
                       s.call.kinds + (if e.count == 0 then [] else [k]), s.call.shown + IfCounted(e), s.call.from),
       taken := s.taken[k := |s.logged[k]|],
       visits := s.visits + [e])
  }

  function EndStep(s: System): System
    requires s.call.Writing?
  {
    s.(sent := s.sent + [Part(s.call.sender, s.call.kinds, s.call.shown, s.call.buf)], call := Idle)
  }

  // ---------- the counts in the packets ----------

  /** The counts printed for event type k. */
  function CountFor(kinds: seq<nat>, shown: seq<Event>, k: nat): nat {
    if kinds == [] || shown == [] then 0 else
      CountFor(kinds[..|kinds| - 1], shown[..|shown| - 1], k) +
      if kinds[|kinds| - 1] == k then shown[|shown| - 1].count else 0
  }

  function CountInParts(parts: seq<Part>, k: nat): nat {
    if parts == [] then 0 else
      var last := parts[|parts| - 1];
      CountInParts(parts[..|parts| - 1], k) + CountFor(last.kinds, last.shown, k)
  }

  function CountInCall(call: Call, k: nat): nat {
    if call.Idle? then 0 else CountFor(call.kinds, call.shown, k)
  }

  /** All counts ever printed for event type k. */
  function CountPrinted(s: System, k: nat): nat {
    CountInParts(s.earlier, k) + CountInParts(s.sent, k) + CountInCall(s.call, k)
  }

  lemma CountForGrows(kinds: seq<nat>, shown: seq<Event>, k: nat, e: Event, j: nat)
    requires |kinds| == |shown|
    ensures CountFor(kinds + (if e.count == 0 then [] else [k]), shown + IfCounted(e), j) ==
            CountFor(kinds, shown, j) + if j == k then e.count else 0
  {
    if e.count == 0 {
      assert kinds + [] == kinds && shown + [] == shown;
    } else {
      assert (kinds + [k])[..|kinds|] == kinds && (shown + [e])[..|shown|] == shown;
    }
  }

  lemma {:induction false} CountInPartsConcat(a: seq<Part>, b: seq<Part>, k: nat)
    ensures CountInParts(a + b, k) == CountInParts(a, k) + CountInParts(b, k)
  {
    if b == [] {
      assert a + b == a;
    } else {
      var n := |b| - 1;
      CountInPartsConcat(a, b[..n], k);
      assert (a + b)[..|a + b| - 1] == a + b[..n];
    }
  }

  // ---------- what every step keeps ----------

  ghost predicate Inv(c: Config, size: nat, s: System) {
    && ProfileOk(c, s.p)
    && HistoriesFit(c, s)
    && (forall k :: 0 <= k < |s.p.stats| ==> Accounted(c, s, k))
    && SendersKept(s)
    && CallOk(c, size, s)
    && PassOk(c, size, s)
  }

  ghost predicate HistoriesFit(c: Config, s: System) {
    |s.logged| == |s.taken| == |s.p.stats|
  }

  /** Every value logged for event type k was either taken, and counted in a packet, or is in the
      aggregate. */
  ghost predicate Accounted(c: Config, s: System, k: nat)
    requires k < |s.p.stats| == |s.logged| == |s.taken|
  {
    && CountPrinted(s, k) == s.taken[k] <= |s.logged[k]|
    && s.p.stats[k] == LoggedAll(Cleared(c.doubles, s.p.stats[k].started), s.logged[k][s.taken[k]..])
  }

  ghost predicate SendersKept(s: System) {
    && s.p.table == TrackedAll(Empty(), s.tracked)
    && (forall i :: 0 <= i < |s.tracked| ==> NulFree(s.tracked[i].text))
  }

  ghost predicate InPass(s: System) {
    s.call.Writing? || s.sent != []
  }

  function Shown(call: Call): seq<Event> {
    if call.Idle? then [] else call.shown
  }

  function SentEvents(sent: seq<Part>): seq<Event> {
    if sent == [] then [] else SentEvents(sent[..|sent| - 1]) + sent[|sent| - 1].shown
  }

  ghost predicate SenderOk(sender: Sender, first: bool) {
    (sender.Sender? <==> first) && (sender.Sender? ==> NulFree(sender.name))
  }

  /** Each aggregate printed has the name of its event type. */
  ghost predicate KindsOk(c: Config, kinds: seq<nat>, shown: seq<Event>) {
    && |kinds| == |shown|
    && (forall i :: 0 <= i < |kinds| ==> kinds[i] < |c.names| && shown[i].name == c.names[kinds[i]])
  }

  ghost predicate CallOk(c: Config, size: nat, s: System) {
    s.call.Writing? ==>
      && Carries(size, c.group, s.call.sender, s.call.shown, s.call.buf)
      && KindsOk(c, s.call.kinds, s.call.shown)
      && SenderOk(s.call.sender, s.sent == [])
      && s.call.from <= s.p.next
      && (s.call.from == s.p.next ==> s.call.shown == [])
      && (|s.p.stats| > 0 ==> s.call.from < |s.p.stats|)
      && |s.sent| <= s.call.from
  }

  ghost predicate PassOk(c: Config, size: nat, s: System) {
    && (!InPass(s) ==> s.p.next == |s.p.stats|)
    && (s.call.Idle? && |s.p.stats| > 0 ==> |s.sent| <= s.p.next)
    && (InPass(s) ==> VisitsShown(c, s))
    && PacketsOk(c, size, s.sent)
    && PartsOk(c, size, s.earlier)
  }

  /** The aggregates visited in this pass are the first ones, and those that were not empty stand
      in the packets, each once and in order; the counts in the packets are those found. */
  ghost predicate VisitsShown(c: Config, s: System) {
    && |s.visits| == s.p.next <= |c.names|
    && (forall k :: 0 <= k < |s.visits| ==> s.visits[k].name == c.names[k])
    && (forall k :: 0 <= k < |c.names| ==>
          CountInParts(s.sent, k) + CountInCall(s.call, k) == if k < |s.visits| then s.visits[k].count else 0)
    && SentEvents(s.sent) + Shown(s.call) == NonEmpty(s.visits)
  }

  ghost predicate PartOk(c: Config, size: nat, part: Part) {
    && Carries(size, c.group, part.sender, part.shown, part.bytes)
    && KindsOk(c, part.kinds, part.shown)
    && (part.sender.Sender? ==> NulFree(part.sender.name))
  }

  ghost predicate PartsOk(c: Config, size: nat, parts: seq<Part>) {
    forall i :: 0 <= i < |parts| ==> PartOk(c, size, parts[i])
  }

  ghost predicate PacketsOk(c: Config, size: nat, sent: seq<Part>) {
    PartsOk(c, size, sent) && forall i :: 0 <= i < |sent| ==> SenderOk(sent[i].sender, i == 0)
  }

  /** The event names are C strings. */
  ghost predicate NamesOk(c: Config) {
    forall k :: 0 <= k < |c.names| ==> NulFree(c.names[k])
  }

  lemma InitialInv(c: Config, size: nat, now: int)
    requires NamesOk(c)
    ensures Inv(c, size, Initial(c, now))
  {
  }

  lemma LogKeeps(c: Config, size: nat, s: System, k: nat, x: real)
    requires Inv(c, size, s) && k < |s.p.stats|
    ensures Inv(c, size, LogStep(s, k, x))
  {
    hide Carries, SenderOk, NonEmpty, SentEvents, NulFree, PacketsOk, Accounted;
    var r := LogStep(s, k, x);
    LogAccounted(c, s, k, x);
    OthersAccounted(c, s, r, k);
  }

  lemma LogAccounted(c: Config, s: System, k: nat, x: real)
    requires HistoriesFit(c, s) && k < |s.p.stats| && Accounted(c, s, k)
    ensures Accounted(c, LogStep(s, k, x), k)
  {
    var r := LogStep(s, k, x);
    var batch := s.logged[k][s.taken[k]..];
    LoggedAllAppend(Cleared(c.doubles, s.p.stats[k].started), batch, x);
    assert r.logged[k][r.taken[k]..] == batch + [x];
  }

  /** The other event types are as they were. */
  lemma OthersAccounted(c: Config, s: System, r: System, k: nat)
    requires HistoriesFit(c, s) && HistoriesFit(c, r) && |r.p.stats| == |s.p.stats|
    requires forall j :: 0 <= j < |s.p.stats| ==> Accounted(c, s, j)
    requires forall j :: 0 <= j < |s.p.stats| && j != k ==>
      r.p.stats[j] == s.p.stats[j] && r.logged[j] == s.logged[j] && r.taken[j] == s.taken[j] && CountPrinted(r, j) == CountPrinted(s, j)
    ensures forall j :: 0 <= j < |s.p.stats| && j != k ==> Accounted(c, r, j)
  {
    forall j | 0 <= j < |s.p.stats| && j != k ensures Accounted(c, r, j) {
      assert Accounted(c, s, j);
    }
  }

  lemma TrackKeeps(c: Config, size: nat, s: System, name: CString)
    requires Inv(c, size, s) && NulFree(name.text)
    ensures Inv(c, size, TrackStep(s, name))
  {
    hide Carries, SenderOk, NonEmpty, SentEvents, NulFree, LoggedAll, PacketsOk, Tracked;
    var r := TrackStep(s, name);
    assert (s.tracked + [name])[..|s.tracked|] == s.tracked;
    OthersAccounted(c, s, r, |s.p.stats|);
  }

  /** The sender printed is a C string. */
  lemma {:induction false} TopTextIsNulFree(tracked: seq<CString>)
    requires forall i :: 0 <= i < |tracked| ==> NulFree(tracked[i].text)
    ensures NulFree(TopText(TrackedAll(Empty(), tracked)))
  {
    TopSender(tracked);
    var top := TopFirst(TrackedAll(Empty(), tracked), MAX_SENDERS)[0].name;
    if top.Name? {
      var i :| 0 <= i < |tracked| && tracked[i] == top.chars;
    }
  }

  lemma StartKeeps(c: Config, size: nat, s: System)
    requires Inv(c, size, s) && s.call.Idle? && size >= 128
    ensures Inv(c, size, StartStep(c, s))
  {
    hide NulFree, TopText, Tracked, Head, Carries, Accounted, PartOk, CountPrinted, VisitsShown;
    TopTextIsNulFree(s.tracked);
    var r := StartStep(c, s);
    StartPrintsNothing(c, s);
    StartShows(c, s);
    OthersAccounted(c, s, r, |s.p.stats|);
    HeadCarries(c, size, NextSender(s.p));
  }

  lemma StartShows(c: Config, s: System)
    requires s.p.table != [] && s.call.Idle? && s.p.next <= |s.p.stats| == |c.names|
    requires s.p.next == |s.p.stats| || VisitsShown(c, s)
    ensures VisitsShown(c, StartStep(c, s))
  {
    hide Head, TopText;
  }

  lemma StartPrintsNothing(c: Config, s: System)
    requires s.p.table != [] && s.call.Idle?
    ensures forall k: nat :: CountPrinted(StartStep(c, s), k) == CountPrinted(s, k)
    ensures forall k: nat :: CountInParts([], k) == 0
  {
    forall k: nat ensures CountPrinted(StartStep(c, s), k) == CountPrinted(s, k) {
      CountInPartsConcat(s.earlier, s.sent, k);
    }
  }

  lemma HeadCarries(c: Config, size: nat, sender: Sender)
    requires size >= 128
    ensures Carries(size, c.group, sender, [], Head(c.group, sender))
  {
    var head := Head(c.group, sender);
    assert head + AllEventBytes([]) == head;
  }

  lemma VisitAccounted(c: Config, s: System, clock: Readings)
    requires ProfileOk(c, s.p) && HistoriesFit(c, s) && s.call.Writing?
    requires s.p.next < |s.p.stats| && Printable(s.p.stats[s.p.next], clock.read)
    requires Accounted(c, s, s.p.next) && |s.call.kinds| == |s.call.shown|
    ensures Accounted(c, VisitStep(c, s, clock), s.p.next)
  {
    var k := s.p.next;
    var r := VisitStep(c, s, clock);
    CountAndAverage(c.doubles, s.p.stats[k].started, s.logged[k][s.taken[k]..]);
    assert r.logged[k][r.taken[k]..] == [];
    VisitCounts(c, s, clock, k);
  }

  /** A visit adds its count to the packet under way, and to no other. */
  lemma VisitCounts(c: Config, s: System, clock: Readings, j: nat)
    requires ProfileOk(c, s.p) && HistoriesFit(c, s) && s.call.Writing?
    requires s.p.next < |s.p.stats| && Printable(s.p.stats[s.p.next], clock.read)
    requires |s.call.kinds| == |s.call.shown|
    ensures CountInCall(VisitStep(c, s, clock).call, j) ==
            CountInCall(s.call, j) + if j == s.p.next then s.p.stats[j].count else 0
  {
    hide CountFor;
    CountForGrows(s.call.kinds, s.call.shown, s.p.next, SummaryAt(c, s.p, s.p.next, clock.read), j);
  }

  lemma VisitCarries(c: Config, size: nat, call: Call, e: Event)
    requires call.Writing? && Carries(size, c.group, call.sender, call.shown, call.buf)
    requires |call.buf| <= size - 64 && EventOk(e)
    ensures EventsOk(IfCounted(e))
    ensures Carries(size, c.group, call.sender, call.shown + IfCounted(e), call.buf + AllEventBytes(IfCounted(e)))
  {
    CountedBytes(e);
    AllEventBytesAppend(call.shown, IfCounted(e));
    Associative(Head(c.group, call.sender), AllEventBytes(call.shown), AllEventBytes(IfCounted(e)));
  }

  lemma VisitShows(c: Config, s: System, clock: Readings)
    requires ProfileOk(c, s.p) && HistoriesFit(c, s) && s.call.Writing?
    requires s.p.next < |s.p.stats| && Printable(s.p.stats[s.p.next], clock.read)
    requires VisitsShown(c, s) && |s.call.kinds| == |s.call.shown|
    ensures VisitsShown(c, VisitStep(c, s, clock))
  {
    hide NonEmpty, IfCounted, SentEvents, CountInParts, CountInCall, AllEventBytes, Printable, Cleared, NulFree;
    var e := SummaryAt(c, s.p, s.p.next, clock.read);
    NonEmptyOne(s.visits, e);
    Associative(SentEvents(s.sent), s.call.shown, IfCounted(e));
    forall k: nat | k < |c.names|
      ensures CountInCall(VisitStep(c, s, clock).call, k) == CountInCall(s.call, k) + if k == s.p.next then e.count else 0
    {
      VisitCounts(c, s, clock, k);
    }
  }

  lemma VisitKeeps(c: Config, size: nat, s: System, clock: Readings)
    requires Inv(c, size, s) && Enabled(c, size, s, Visit(clock))
    ensures Inv(c, size, VisitStep(c, s, clock))
  {
    hide Accounted, Carries, VisitsShown, PacketsOk, PartsOk, NulFree, TrackedAll, CountInParts, CountInCall;
    var k := s.p.next;
    var e := SummaryAt(c, s.p, k, clock.read);
    var r := VisitStep(c, s, clock);
    VisitAccounted(c, s, clock);
    forall j: nat | j != k ensures CountPrinted(r, j) == CountPrinted(s, j) {
      VisitCounts(c, s, clock, j);
    }
    OthersAccounted(c, s, r, k);
    VisitCarries(c, size, s.call, e);
    VisitShows(c, s, clock);
  }

  lemma HeadLeavesRoom(size: nat, group: Text, sender: Sender, buf: seq<Byte>)
    requires Carries(size, group, sender, [], buf) && size >= 128
    ensures |buf| <= size - 64
  {
  }

  /** The packet is finished, and no count has changed. */
  lemma EndCounts(s: System, k: nat)
    requires s.call.Writing?
    ensures CountInParts(EndStep(s).sent, k) == CountInParts(s.sent, k) + CountInCall(s.call, k)
  {
    hide CountFor;
    var r := EndStep(s);
    assert r.sent[..|r.sent| - 1] == s.sent;
  }

  lemma EndShows(c: Config, s: System)
    requires s.call.Writing? && VisitsShown(c, s)
    ensures VisitsShown(c, EndStep(s))
  {
    hide NonEmpty, CountInParts;
    var r := EndStep(s);
    assert r.sent[..|r.sent| - 1] == s.sent;
    assert SentEvents(r.sent) + [] == SentEvents(s.sent) + s.call.shown;
    forall k: nat | k < |c.names|
      ensures CountInParts(r.sent, k) + CountInCall(r.call, k) == if k < |r.visits| then r.visits[k].count else 0
    {
      EndCounts(s, k);
      assert CountInCall(r.call, k) == 0;
    }
  }

  lemma EndPackets(c: Config, size: nat, s: System)
    requires s.call.Writing? && CallOk(c, size, s) && PacketsOk(c, size, s.sent)
    ensures PacketsOk(c, size, EndStep(s).sent)
  {
    hide Carries, KindsOk, NulFree;
    var sent := EndStep(s).sent;
    assert PartOk(c, size, sent[|s.sent|]);
    forall i | 0 <= i < |sent| ensures PartOk(c, size, sent[i]) && SenderOk(sent[i].sender, i == 0) {
      assert i < |s.sent| ==> sent[i] == s.sent[i];
    }
  }

  lemma EndKeeps(c: Config, size: nat, s: System)
    requires Inv(c, size, s) && Enabled(c, size, s, EndCall) && size >= 128
    ensures Inv(c, size, EndStep(s))
  {
    hide Accounted, NulFree, Carries, KindsOk, VisitsShown, PacketsOk, PartsOk, CountPrinted, SentEvents, CountInParts;
    if s.call.shown == [] {
      HeadLeavesRoom(size, c.group, s.call.sender, s.call.buf);
    }
    EndShows(c, s);
    EndPackets(c, size, s);
    forall k: nat ensures CountPrinted(EndStep(s), k) == CountPrinted(s, k) {
      EndPrints(s, k);
    }
    OthersAccounted(c, s, EndStep(s), |s.p.stats|);
  }

  lemma EndPrints(s: System, k: nat)
    requires s.call.Writing?
    ensures CountPrinted(EndStep(s), k) == CountPrinted(s, k)
  {
    EndCounts(s, k);
    hide CountInParts, CountFor;
  }

  lemma StepKeeps(c: Config, size: nat, s: System, step: Step)
    requires Inv(c, size, s) && Enabled(c, size, s, step) && size >= 128
    ensures Inv(c, size, Apply(c, size, s, step))
  {
    hide Inv;
    match step
    case LogValue(k, x) => LogKeeps(c, size, s, k, x);
    case Track(name) => TrackKeeps(c, size, s, name);
    case StartCall => StartKeeps(c, size, s);
    case Visit(clock) => VisitKeeps(c, size, s, clock);
    case EndCall => EndKeeps(c, size, s);
  }

  // ---------- runs ----------

  /** Every step of the run can be made when its turn comes. */
  ghost predicate IsRun(c: Config, size: nat, s: System, steps: seq<Step>)
    requires Inv(c, size, s) && size >= 128
    decreases |steps|
  {
    steps != [] ==>
      && Enabled(c, size, s, steps[0])
      && (StepKeeps(c, size, s, steps[0]); IsRun(c, size, Apply(c, size, s, steps[0]), steps[1..]))
  }

  ghost function After(c: Config, size: nat, s: System, steps: seq<Step>): (r: System)
    requires Inv(c, size, s) && size >= 128 && IsRun(c, size, s, steps)
    ensures Inv(c, size, r)
    decreases |steps|
  {
    if steps == [] then s else
      StepKeeps(c, size, s, steps[0]);
      After(c, size, Apply(c, size, s, steps[0]), steps[1..])
  }

  /** The state after some run from the construction of the object on. */
  ghost predicate Reachable(c: Config, size: nat, s: System)
    requires size >= 128 && NamesOk(c)
  {
    exists now: int, steps: seq<Step> ::
      (InitialInv(c, size, now); IsRun(c, size, Initial(c, now), steps) && s == After(c, size, Initial(c, now), steps))
  }

  lemma ReachableInv(c: Config, size: nat, s: System)
    requires size >= 128 && NamesOk(c) && Reachable(c, size, s)
    ensures Inv(c, size, s)
  {
  }

  /** Conservation: however logging and serializing interleave, for each event type the values
      logged are as many as the counts standing in all packets ever sent, in the packet under way
      and in the aggregate together. */
  lemma EventCountsConserved(c: Config, size: nat, s: System, k: nat)
    requires size >= 128 && NamesOk(c) && Reachable(c, size, s)
    requires k < |c.names|
    ensures |s.logged| == |s.p.stats| == |c.names|
    ensures |s.logged[k]| == CountInParts(s.earlier + s.sent, k) + CountInCall(s.call, k) + s.p.stats[k].count
  {
    ReachableInv(c, size, s);
    assert Accounted(c, s, k);
    CountAndAverage(c.doubles, s.p.stats[k].started, s.logged[k][s.taken[k]..]);
    CountInPartsConcat(s.earlier, s.sent, k);
  }

  /** Every packet ever sent is the group, the sender if there is one, and the aggregates counted
      in it, each under the name of its event type. */
  lemma EveryPacketIsPrinted(c: Config, size: nat, s: System, i: nat)
    requires size >= 128 && NamesOk(c) && Reachable(c, size, s)
    requires i < |s.earlier + s.sent|
    ensures var part := (s.earlier + s.sent)[i];
      && Carries(size, c.group, part.sender, part.shown, part.bytes)
      && |part.kinds| == |part.shown|
      && (forall j :: 0 <= j < |part.kinds| ==> part.kinds[j] < |c.names| && part.shown[j].name == c.names[part.kinds[j]])
      && (part.sender.Sender? ==> NulFree(part.sender.name))
  {
    ReachableInv(c, size, s);
    hide Carries, Accounted, CallOk, VisitsShown, SendersKept;
    var part := (s.earlier + s.sent)[i];
    assert PartOk(c, size, part);
  }

  /** What a visit reports are the statistics of exactly the values logged since the last visit,
      and nothing of them is left behind. */
  lemma VisitReportsTheRest(c: Config, size: nat, s: System, clock: Readings)
    requires Inv(c, size, s) && Enabled(c, size, s, Visit(clock))
    ensures var k := s.p.next;
      && s.taken[k] <= |s.logged[k]|
      && |VisitStep(c, s, clock).visits| == |s.visits| + 1
      && Reports(c.doubles, c.names[k], s.logged[k][s.taken[k]..], clock.read - s.p.stats[k].started,
                 VisitStep(c, s, clock).visits[|s.visits|])
      && VisitStep(c, s, clock).taken[k] == |s.logged[k]|
  {
    hide Reports, LoggedAll, CallOk, PassOk, Carries, SendersKept, Printable, Cleared, AllEventBytes, NonEmpty;
    var k := s.p.next;
    assert Accounted(c, s, k);
    SummaryReports(c.doubles, c.names[k], s.p.stats[k].started, s.logged[k][s.taken[k]..], clock.read);
  }

  /** The pass is over: the last call has returned that there is no more. */
  predicate PassOver(s: System) {
    s.call.Idle? && s.sent != [] && s.p.next == |s.p.stats|
  }

  /** A whole pass, with any logging in between: all aggregates have been visited, and exactly
      those that were not empty stand in the packets, each once and in order, and for each event type
      the counts in the packets add up to the one found; the sender is in the first packet and in no
      other; no packet is larger than the buffer; and there are no more packets than aggregates,
      if there are any. */
  lemma PassIsComplete(c: Config, size: nat, s: System)
    requires size >= 128 && NamesOk(c) && Reachable(c, size, s)
    requires PassOver(s)
    ensures |s.visits| == |c.names| && SentEvents(s.sent) == NonEmpty(s.visits)
    ensures forall k :: 0 <= k < |c.names| ==>
      s.visits[k].name == c.names[k] && CountInParts(s.sent, k) == s.visits[k].count
    ensures forall i :: 0 <= i < |s.sent| ==>
      && EventsOk(s.sent[i].shown)
      && s.sent[i].bytes == Head(c.group, s.sent[i].sender) + AllEventBytes(s.sent[i].shown)
      && |s.sent[i].bytes| <= size
      && (s.sent[i].sender.Sender? <==> i == 0)
    ensures |c.names| > 0 ==> |s.sent| <= |c.names|
  {
    hide SentEvents, NonEmpty, NulFree, Accounted, Reachable, CountInParts, AllEventBytes, Head;
    ReachableInv(c, size, s);
    assert SentEvents(s.sent) + [] == SentEvents(s.sent);
  }

  /** Every packet ever sent with a sender, that is the first of every pass of every run, decodes to
      the group, the sender and the aggregates that were printed in it. */
  lemma FirstPacketDecodes(c: Config, size: nat, s: System, i: nat)
    requires size >= 128 && NamesOk(c) && Reachable(c, size, s)
    requires NulFree(c.group) && i < |s.earlier + s.sent| && (s.earlier + s.sent)[i].sender.Sender?
    ensures var part := (s.earlier + s.sent)[i];
      Decoded(part.bytes) ==
        Ok(Report(Cut(c.group), SEND + Cut(part.sender.name), AllTagged(part.shown)), |part.bytes|)
    ensures s.sent != [] ==> s.sent[0].sender.Sender?
  {
    ReachableInv(c, size, s);
    EveryPacketIsPrinted(c, size, s, i);
    var part := (s.earlier + s.sent)[i];
    RoundTrip(part.bytes, c.group, part.sender.name, part.shown);
  }

  /** The call that starts a pass prints the most frequent of the first four different senders
      tracked since the pass before, or "N/A" if there were none. */
  lemma SenderIsTop(c: Config, size: nat, s: System)
    requires Inv(c, size, s) && s.call.Idle? && s.p.next == |s.p.stats|
    ensures var r := StartStep(c, s);
      && r.tracked == [] && r.call.sender.Sender?
      && (if s.tracked == [] then r.call.sender.name == NOT_AVAILABLE else
            exists x <- FirstDistinct(s.tracked) ::
              && r.call.sender.name == x.text
              && forall y <- FirstDistinct(s.tracked) :: Occurrences(s.tracked, y) <= Occurrences(s.tracked, x))
  {
    TopSender(s.tracked);
  }

  // ---------- a call that nothing interrupts ----------

  ghost predicate Runnable(c: Config, s: System, clock: seq<Readings>) {
    && ProfileOk(c, s.p) && HistoriesFit(c, s) && s.call.Writing? && |clock| == |s.p.stats|
    && (forall k :: s.p.next <= k < |s.p.stats| ==> Printable(s.p.stats[k], clock[k].read))
  }

  /** The serializing thread alone, up to the end of its call. */
  ghost function RunCall(c: Config, size: nat, s: System, clock: seq<Readings>): System
    requires Runnable(c, s, clock)
    decreases |s.p.stats| - s.p.next
  {
    if |s.call.buf| <= size - 64 && s.p.next < |s.p.stats| then
      RunCall(c, size, VisitStep(c, s, clock[s.p.next]), clock)
    else
      Apply(c, size, s, EndCall)
  }

  lemma {:induction false} RunCallPrints(c: Config, size: nat, s: System, clock: seq<Readings>, p: Profile, n: nat)
    requires Runnable(c, s, clock) && InCall(c, p, size, clock, n, s.p, s.call.buf)
    ensures var r := RunCall(c, size, s, clock);
      && r.call.Idle? && |r.sent| == |s.sent| + 1
      && r.p == Visiting(c, p, CallVisits(c, p, size, clock), clock)
      && r.sent[|s.sent|].bytes == CallPacket(c, p, size, clock)
    decreases |s.p.stats| - s.p.next
  {
    hide InCall, AllEventBytes, IfCounted, Printable, Visiting, Cleared;
    if |s.call.buf| <= size - 64 && s.p.next < |s.p.stats| {
      CallGoesOn(c, p, size, clock, n, s.p, s.call.buf);
      RunCallPrints(c, size, VisitStep(c, s, clock[s.p.next]), clock, p, n + 1);
    } else {
      CallEnds(c, p, size, clock, n, s.p, s.call.buf);
    }
  }

  /** Without interruption the steps of a call leave the state and the packet that GatherNSerialize
      promises. */
  lemma UninterruptedCall(c: Config, size: nat, s: System, clock: seq<Readings>)
    requires Inv(c, size, s) && s.call.Idle? && size >= 128 && Ready(c, s.p, clock)
    ensures Runnable(c, StartStep(c, s), clock)
    ensures var r := RunCall(c, size, StartStep(c, s), clock);
      && r.sent != []
      && r.p == Visiting(c, s.p, CallVisits(c, s.p, size, clock), clock)
      && r.sent[|r.sent| - 1].bytes == CallPacket(c, s.p, size, clock)
  {
    hide Head, Printable, InCall, NulFree, CallOk, PassOk;
    CallStarts(c, s.p, size, clock);
    RunCallPrints(c, size, StartStep(c, s), clock, s.p, 0);
  }
}
