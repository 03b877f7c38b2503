/** src/SenderLogger.cpp: which thread pushed most, kept in a table of four. */
module Senders {
  import opened Wire

  const MAX_SENDERS: nat := 4

  /** A C string; names are told apart by their addresses. */
  datatype CString = CString(address: nat, text: Text)

  datatype Name = Null | Name(chars: CString)

  datatype Entry = Entry(name: Name, packets: nat)

  const NOBODY := Entry(Null, 0)

  const NOT_AVAILABLE: Text := ['N' as int, '/' as int, 'A' as int]

  function Empty(): seq<Entry> {
    seq(MAX_SENDERS, _ => NOBODY)
  }

  /** The entry at which the search for `name` stops. */
  function Slot(table: seq<Entry>, name: CString): (i: nat)
    ensures i <= |table|
    ensures i < |table| ==> table[i].name == Null || table[i].name == Name(name)
    ensures forall j :: 0 <= j < i ==> table[j].name != Null && table[j].name != Name(name)
  {
    if table == [] || table[0].name == Null || table[0].name == Name(name) then 0
    else 1 + Slot(table[1..], name)
  }

  function Tracked(table: seq<Entry>, name: CString): (r: seq<Entry>)
    ensures |r| == |table|
  {
    var i := Slot(table, name);
    if i == |table| then table
    else if table[i].name == Null then table[i := Entry(Name(name), 1)]
    else table[i := Entry(table[i].name, table[i].packets + 1)]
  }

  function TrackedAll(table: seq<Entry>, names: seq<CString>): (r: seq<Entry>)
    ensures |r| == |table|
  {
    if names == [] then table else Tracked(TrackedAll(table, names[..|names| - 1]), names[|names| - 1])
  }

  /** The first entry and entry i in each other's places. */
  function Trade(t: seq<Entry>, i: nat): (r: seq<Entry>)
    requires i < |t|
    ensures |r| == |t|
  {
    t[0 := t[i]][i := t[0]]
  }

  lemma TradeKeeps(t: seq<Entry>, i: nat)
    requires i < |t|
    ensures multiset(Trade(t, i)) == multiset(t)
  {
  }

  /** One comparison of partial_sort: entry i trades places with the first if it has more packets. */
  function Compared(t: seq<Entry>, i: nat): (r: seq<Entry>)
    requires i < |t|
    ensures |r| == |t| && multiset(r) == multiset(t)
    ensures TopOf(t, i) ==> TopOf(r, i + 1)
  {
    TradeKeeps(t, i);
    if t[i].packets > t[0].packets then Trade(t, i) else t
  }

  /** None of the first `n` entries has more packets than the first. */
  predicate TopOf(t: seq<Entry>, n: nat)
    requires n <= |t|
  {
    forall i :: 0 <= i < n ==> t[i].packets <= t[0].packets
  }

  /** partial_sort with only the first place to fill: each later entry is compared with the first;
      `n` entries have been looked at. */
  function TopFirst(table: seq<Entry>, n: nat): (r: seq<Entry>)
    requires 1 <= n <= |table|
    ensures |r| == |table| && multiset(r) == multiset(table)
    ensures TopOf(r, n)
  {
    if n == 1 then table else Compared(TopFirst(table, n - 1), n - 1)
  }

  lemma OneIsTop(table: seq<Entry>)
    requires table != []
    ensures TopFirst(table, 1) == table
  {
  }

  lemma TopFirstStep(table: seq<Entry>, n: nat)
    requires 1 <= n < |table|
    ensures var t := TopFirst(table, n);
      TopFirst(table, n + 1) == if t[n].packets > t[0].packets then Trade(t, n) else t
  {
  }

  /** The name Serialize prints. */
  function TopText(table: seq<Entry>): Text
    requires table != []
  {
    match TopFirst(table, |table|)[0].name
    case Null => NOT_AVAILABLE
    case Name(s) => s.text
  }

  // ---------- what the table holds ----------

  /** The first four different senders, in order of appearance. */
  function FirstDistinct(names: seq<CString>): (r: seq<CString>)
    ensures |r| <= MAX_SENDERS
    ensures forall i :: 0 <= i < |r| ==> r[i] in names
  {
    if names == [] then [] else
      var before, last := FirstDistinct(names[..|names| - 1]), names[|names| - 1];
      if |before| == MAX_SENDERS || last in before then before else before + [last]
  }

  function Occurrences(names: seq<CString>, name: CString): (n: nat)
    ensures n > 0 <==> name in names
    ensures n == multiset(names)[name]
  {
    if names == [] then 0 else
      assert names == names[..|names| - 1] + [names[|names| - 1]];
      Occurrences(names[..|names| - 1], name) + if names[|names| - 1] == name then 1 else 0
  }

  /** The table after `names`: the first four different senders, each with its exact count. */
  ghost predicate Exact(table: seq<Entry>, names: seq<CString>) {
    Holds(table, FirstDistinct(names), names)
  }

  ghost predicate Holds(table: seq<Entry>, first: seq<CString>, names: seq<CString>) {
    && |first| <= |table| == MAX_SENDERS
    && (forall i :: 0 <= i < |first| ==> table[i] == Entry(Name(first[i]), Occurrences(names, first[i])))
    && (forall i :: |first| <= i < MAX_SENDERS ==> table[i] == NOBODY)
  }

  lemma {:induction false} Distinct(names: seq<CString>, i: nat, j: nat)
    requires i < j < |FirstDistinct(names)|
    ensures FirstDistinct(names)[i] != FirstDistinct(names)[j]
  {
    var before := FirstDistinct(names[..|names| - 1]);
    if j < |before| {
      Distinct(names[..|names| - 1], i, j);
    }
  }

  /** Whoever is among the first four stays in place, whatever is tracked afterwards. */
  lemma {:induction false} FirstStay(names: seq<CString>, k: nat)
    requires k <= |names|
    ensures FirstDistinct(names[..k]) <= FirstDistinct(names)
  {
    if k == |names| {
      assert names[..k] == names;
    } else {
      FirstStay(names[..|names| - 1], k);
      assert names[..|names| - 1][..k] == names[..k];
    }
  }

  /** Where the search stops. */
  lemma SlotOf(table: seq<Entry>, names: seq<CString>, name: CString)
    requires Exact(table, names)
    ensures var first, i := FirstDistinct(names), Slot(table, name);
      if i < |first| then first[i] == name else i == |first| && name !in first
  {
    var first, i := FirstDistinct(names), Slot(table, name);
    if i < |first| {
      assert table[i].name == Name(first[i]);
    } else {
      forall j | 0 <= j < |first| ensures first[j] != name {
        assert table[j].name == Name(first[j]);
      }
      assert |first| < MAX_SENDERS ==> table[|first|].name == Null;
    }
  }

  lemma CountsMove(names: seq<CString>, x: CString)
    requires names != []
    ensures Occurrences(names, x) ==
            Occurrences(names[..|names| - 1], x) + if x == names[|names| - 1] then 1 else 0
  {
  }

  lemma OneMore(table: seq<Entry>, first: seq<CString>, names: seq<CString>, i: nat)
    requires names != [] && Holds(table, first, names[..|names| - 1])
    requires i < |first| && first[i] == names[|names| - 1]
    requires forall k :: 0 <= k < |first| && k != i ==> first[k] != first[i]
    ensures Holds(table[i := Entry(table[i].name, table[i].packets + 1)], first, names)
  {
    forall k | 0 <= k < |first|
      ensures Occurrences(names, first[k]) == Occurrences(names[..|names| - 1], first[k]) + if k == i then 1 else 0
    {
      CountsMove(names, first[k]);
    }
    hide Occurrences;
  }

  lemma NewSender(table: seq<Entry>, first: seq<CString>, names: seq<CString>)
    requires names != [] && Holds(table, first, names[..|names| - 1]) && |first| < MAX_SENDERS
    requires names[|names| - 1] !in names[..|names| - 1] && names[|names| - 1] !in first
    ensures Holds(table[|first| := Entry(Name(names[|names| - 1]), 1)], first + [names[|names| - 1]], names)
  {
    var last := names[|names| - 1];
    CountsMove(names, last);
    forall k | 0 <= k < |first|
      ensures Occurrences(names, first[k]) == Occurrences(names[..|names| - 1], first[k])
    {
      CountsMove(names, first[k]);
    }
    hide Occurrences;
  }

  lemma TableFull(table: seq<Entry>, first: seq<CString>, names: seq<CString>)
    requires names != [] && Holds(table, first, names[..|names| - 1]) && |first| == MAX_SENDERS
    requires names[|names| - 1] !in first
    ensures Holds(table, first, names)
  {
    forall k | 0 <= k < |first|
      ensures Occurrences(names, first[k]) == Occurrences(names[..|names| - 1], first[k])
    {
      CountsMove(names, first[k]);
    }
    hide Occurrences;
  }

  lemma FirstGrows(names: seq<CString>)
    requires names != []
    ensures var first, last := FirstDistinct(names[..|names| - 1]), names[|names| - 1];
      FirstDistinct(names) == if |first| == MAX_SENDERS || last in first then first else first + [last]
  {
  }

  lemma OthersDiffer(names: seq<CString>, i: nat)
    requires i < |FirstDistinct(names)|
    ensures forall k :: 0 <= k < |FirstDistinct(names)| && k != i ==> FirstDistinct(names)[k] != FirstDistinct(names)[i]
  {
    forall k | 0 <= k < |FirstDistinct(names)| && k != i ensures FirstDistinct(names)[k] != FirstDistinct(names)[i] {
      if k < i { Distinct(names, k, i); } else { Distinct(names, i, k); }
    }
  }

  lemma {:induction false} TrackedIsExact(table: seq<Entry>, names: seq<CString>)
    requires names != [] && Exact(table, names[..|names| - 1])
    ensures Exact(Tracked(table, names[|names| - 1]), names)
  {
    hide FirstDistinct, Occurrences, Slot;
    var before, last := names[..|names| - 1], names[|names| - 1];
    var first := FirstDistinct(before);
    var i := Slot(table, last);
    SlotOf(table, before, last);
    FirstGrows(names);
    if i < |first| {
      OthersDiffer(before, i);
      OneMore(table, first, names, i);
      assert table[i].name != Null;
    } else if |first| < MAX_SENDERS {
      NotBefore(before, last);
      NewSender(table, first, names);
      assert table[i].name == Null;
    } else {
      TableFull(table, first, names);
    }
  }

  lemma {:induction false} NotBefore(names: seq<CString>, name: CString)
    requires name !in FirstDistinct(names) && |FirstDistinct(names)| < MAX_SENDERS
    ensures name !in names
  {
    if name in names {
      FewSendersAllTracked(names, name);
    }
  }

  lemma {:induction false} TableIsExact(names: seq<CString>)
    ensures Exact(TrackedAll(Empty(), names), names)
  {
    if names == [] {
    } else {
      TableIsExact(names[..|names| - 1]);
      TrackedIsExact(TrackedAll(Empty(), names[..|names| - 1]), names);
    }
  }

  // ---------- the top sender ----------

  /** After any sequence of tracked names the sender printed is one of the first four different
      ones, and none of these was tracked more often; it is "N/A" if nothing was tracked. */
  lemma TopSender(names: seq<CString>)
    ensures var top := TopFirst(TrackedAll(Empty(), names), MAX_SENDERS)[0].name;
      && (top.Null? <==> names == [])
      && (top.Name? ==>
            && top.chars in FirstDistinct(names)
            && forall x <- FirstDistinct(names) :: Occurrences(names, x) <= Occurrences(names, top.chars))
  {
    var table := TrackedAll(Empty(), names);
    var sorted := TopFirst(table, MAX_SENDERS);
    var first := FirstDistinct(names);
    TableIsExact(names);
    assert sorted[0] in multiset(sorted);
    assert sorted[0] in multiset(table);
    var k :| 0 <= k < |table| && table[k] == sorted[0];
    FirstNotEmpty(names);
    forall i | 0 <= i < |first| ensures table[i].packets <= sorted[0].packets && table[i].packets > 0 {
      assert table[i] in multiset(table);
      assert table[i] in multiset(sorted);
      var j :| 0 <= j < |sorted| && sorted[j] == table[i];
    }
    if names != [] {
      assert table[0].packets > 0;
    }
  }

  lemma FirstNotEmpty(names: seq<CString>)
    ensures names == [] <==> FirstDistinct(names) == []
  {
  }

  ghost predicate MostFrequent(name: CString, names: seq<CString>) {
    name in names && forall x <- names :: Occurrences(names, x) <= Occurrences(names, name)
  }

  /** The sender printed is the most frequent of all exactly if a most frequent one is among the
      first four different ones. */
  lemma TopSenderOfAllIff(names: seq<CString>)
    ensures var top := TopFirst(TrackedAll(Empty(), names), MAX_SENDERS)[0].name;
      top.Name? && MostFrequent(top.chars, names) <==> exists x <- FirstDistinct(names) :: MostFrequent(x, names)
  {
    TopSender(names);
  }

  lemma {:induction false} DistinctKept(names: seq<CString>)
    requires |names| <= MAX_SENDERS && forall i, j :: 0 <= i < j < |names| ==> names[i] != names[j]
    ensures FirstDistinct(names) == names
    ensures forall x <- names :: Occurrences(names, x) == 1
  {
    hide FirstDistinct, Occurrences;
    if names == [] {
      Empties();
    } else {
      var before, last := names[..|names| - 1], names[|names| - 1];
      DistinctKept(before);
      assert names == before + [last] && last !in before;
      Appended(before, last);
      FirstGrows(names);
    }
  }

  lemma Empties()
    ensures FirstDistinct([]) == []
  {
  }

  lemma Appended(names: seq<CString>, last: CString)
    ensures forall x :: Occurrences(names + [last], x) == Occurrences(names, x) + if x == last then 1 else 0
    ensures |FirstDistinct(names)| == MAX_SENDERS ==> FirstDistinct(names + [last]) == FirstDistinct(names)
  {
    assert (names + [last])[..|names|] == names;
  }

  /** A fifth sender is missed, even if it pushed most: the sender printed is then not the most
      frequent of all. */
  lemma FifthSenderMissed(four: seq<CString>, e: CString)
    requires |four| == 4 && e !in four
    requires forall i, j :: 0 <= i < j < |four| ==> four[i] != four[j]
    ensures var names := four + [e] + [e];
      var top := TopFirst(TrackedAll(Empty(), names), MAX_SENDERS)[0].name;
      MostFrequent(e, names) && top.Name? && top.chars in four && !MostFrequent(top.chars, names)
  {
    hide FirstDistinct, Occurrences, TopFirst, TrackedAll;
    DistinctKept(four);
    Appended(four, e);
    Appended(four + [e], e);
    TopSender(four + [e] + [e]);
    assert e in four + [e] + [e];
  }

  /** As long as the table has room, no sender is missed. */
  lemma {:induction false} FewSendersAllTracked(names: seq<CString>, x: CString)
    requires x in names && |FirstDistinct(names)| < 4
    ensures x in FirstDistinct(names)
  {
    var before, last := names[..|names| - 1], names[|names| - 1];
    if x != last {
      assert x in before;
    }
    if x in before {
      FewSendersAllTracked(before, x);
    }
  }
}

/** The class of src/SenderLogger.cpp. */
module SenderLoggers {
  import opened ByteOrder
  import opened Wire
  import opened Buffers
  import opened Senders

  class SenderLogger {
    const trackEvent: nat
    const senders: array<Entry>

    ghost predicate Valid()
      reads this
    {
      senders.Length == MAX_SENDERS
    }

    constructor (trackEvent: nat)
      ensures Valid() && fresh(senders) && this.trackEvent == trackEvent
      ensures senders[..] == Empty()
    {
      this.trackEvent := trackEvent;
      senders := new Entry[MAX_SENDERS];
      new;
      ClearTopSenders();
    }

    /** `threadName` is the name of the current thread. */
    method TrackSender(event: nat, threadName: CString)
      requires Valid()
      modifies senders
      ensures senders[..] == if event == trackEvent then Tracked(old(senders[..]), threadName) else old(senders[..])
    {
      if event != trackEvent { return; }
      var i: nat := 0;
      while i < senders.Length && senders[i].name != Null && senders[i].name != Name(threadName)
        invariant i <= senders.Length
        invariant Slot(senders[..], threadName) == i + Slot(senders[i..], threadName)
      {
        i := i + 1;
      }
      if i < senders.Length {
        if senders[i].name == Null {
          senders[i] := Entry(Name(threadName), 1);
        } else {
          senders[i] := Entry(senders[i].name, senders[i].packets + 1);
        }
      }
    }

    method ClearTopSenders()
      requires Valid()
      modifies senders
      ensures senders[..] == Empty()
    {
      for i := 0 to senders.Length
        invariant forall j :: 0 <= j < i ==> senders[j] == NOBODY
      {
        senders[i] := NOBODY;
      }
    }

    /** The first entry and entry i trade places. */
    method Swap(i: nat)
      requires Valid() && i < senders.Length
      modifies senders
      ensures senders[..] == Trade(old(senders[..]), i)
    {
      senders[0], senders[i] := senders[i], senders[0];
    }

    method GetTopSender() returns (top: Name)
      requires Valid()
      modifies senders
      ensures senders[..] == TopFirst(old(senders[..]), MAX_SENDERS)
      ensures top == senders[0].name
    {
      hide TopFirst, Trade;
      OneIsTop(senders[..]);
      for i := 1 to senders.Length
        invariant senders[..] == TopFirst(old(senders[..]), i)
      {
        TopFirstStep(old(senders[..]), i);
        if senders[i].packets > senders[0].packets {
          Swap(i);
        }
      }
      top := senders[0].name;
    }

    method Serialize(buffer: array<Byte>, start: nat) returns (pos: nat)
      requires Valid() && start + 32 <= buffer.Length
      modifies senders, buffer
      ensures var b := Keyword(SEND, TopText(old(senders[..])));
        pos == start + |b| && buffer[..] == Overwritten(old(buffer[..]), start, b)
      ensures senders[..] == TopFirst(old(senders[..]), MAX_SENDERS)
    {
      ghost var was := buffer[..];
      pos := Copy(buffer, start, SEND);
      var top := GetTopSender();
      var text := if top == Null then NOT_AVAILABLE else top.chars.text;
      OverwrittenTwice(was, start, SEND, Cut(text) + [0]);
      assert SEND + (Cut(text) + [0]) == Keyword(SEND, text);
      hide Overwritten, Cut, TopFirst;
      pos := CopyString(buffer, pos, text);
    }

    method SerializeNClear(buffer: array<Byte>, start: nat) returns (pos: nat)
      requires Valid() && start + 32 <= buffer.Length
      modifies senders, buffer
      ensures var b := Keyword(SEND, TopText(old(senders[..])));
        pos == start + |b| && buffer[..] == Overwritten(old(buffer[..]), start, b)
      ensures senders[..] == Empty()
    {
      pos := Serialize(buffer, start);
      ClearTopSenders();
    }
  }
}
