/** What one aggregate of src/LogAggregate.cpp collects, on values. Doubles are finite and not
    rounded; of their format the model keeps the two limits the code uses and the bit patterns. */
module Aggregates {
  import opened ByteOrder
  import opened Wire

  const INT_MAX: nat := 0x7FFF_FFFF

  type Word = n: nat | n < Pow256(8) witness 0

  /** `least` is the smallest positive normal double (numeric_limits::min), `greatest` the largest
      finite one (numeric_limits::max), `word` the bit pattern of a double. */
  datatype Doubles = Doubles(least: real, greatest: real, word: real -> Word)

  datatype Stats = Stats(count: nat, started: int, min: real, max: real, sum: real)

  function Cleared(d: Doubles, now: int): Stats {
    Stats(0, now, d.greatest, d.least, 0.0)
  }

  function Logged(s: Stats, x: real): Stats {
    Stats(s.count + 1, s.started, if x < s.min then x else s.min, if x > s.max then x else s.max, s.sum + x)
  }

  function LoggedAll(s: Stats, xs: seq<real>): Stats {
    if xs == [] then s else Logged(LoggedAll(s, xs[..|xs| - 1]), xs[|xs| - 1])
  }

  /** The width of the counter, and what GetTimePassedInMicroSecs asserts. */
  predicate Printable(s: Stats, now: int) {
    s.count <= INT_MAX && 0 <= now - s.started < INT_MAX
  }

  /** What has been logged since the last clearing can be printed exactly if it is not more than the
      counter holds and not too long ago. */
  lemma PrintableIff(d: Doubles, started: int, xs: seq<real>, now: int)
    ensures Printable(LoggedAll(Cleared(d, started), xs), now) <==> |xs| <= 0x7FFF_FFFF && 0 <= now - started < 0x7FFF_FFFF
  {
    CountAndAverage(d, started, xs);
  }

  function Average(s: Stats): real {
    if s.count != 0 then s.sum / s.count as real else 0.0
  }

  /** What Serialize prints at time `now`. */
  function Summary(d: Doubles, name: Text, s: Stats, now: int): (e: Event)
    requires Printable(s, now)
    ensures NulFree(name) ==> EventOk(e)
  {
    assert INT_MAX < Pow256(4);
    Event(name, s.count, now - s.started, d.word(s.min), d.word(s.max), d.word(Average(s)))
  }

  // ---------- what the numbers mean ----------

  function Sum(xs: seq<real>): real {
    if xs == [] then 0.0 else Sum(xs[..|xs| - 1]) + xs[|xs| - 1]
  }

  /** `m` is the value `xs` has that no other value in `xs` exceeds. */
  ghost predicate IsMaximum(m: real, xs: seq<real>) {
    && (exists i :: 0 <= i < |xs| && xs[i] == m)
    && (forall i :: 0 <= i < |xs| ==> xs[i] <= m)
  }

  ghost predicate IsMinimum(m: real, xs: seq<real>) {
    && (exists i :: 0 <= i < |xs| && xs[i] == m)
    && (forall i :: 0 <= i < |xs| ==> m <= xs[i])
  }

  /** The count and the average are those of the values logged since the last clearing. */
  lemma {:induction false} CountAndAverage(d: Doubles, now: int, xs: seq<real>)
    ensures var s := LoggedAll(Cleared(d, now), xs);
      && s.count == |xs| && s.started == now && s.sum == Sum(xs)
      && (xs != [] ==> Average(s) == Sum(xs) / |xs| as real)
  {
    if xs == [] {
    } else {
      CountAndAverage(d, now, xs[..|xs| - 1]);
    }
  }

  /** `min` and `max` start from the two limits and take in every logged value. */
  lemma {:induction false} LimitsTakeIn(d: Doubles, now: int, xs: seq<real>)
    ensures var s := LoggedAll(Cleared(d, now), xs);
      IsMinimum(s.min, [d.greatest] + xs) && IsMaximum(s.max, [d.least] + xs)
  {
    var s := LoggedAll(Cleared(d, now), xs);
    if xs == [] {
      assert ([d.greatest] + xs)[0] == s.min && ([d.least] + xs)[0] == s.max;
    } else {
      var n := |xs| - 1;
      var r := LoggedAll(Cleared(d, now), xs[..n]);
      LimitsTakeIn(d, now, xs[..n]);
      ExtendMinimum(r.min, [d.greatest] + xs[..n], xs[n]);
      ExtendMaximum(r.max, [d.least] + xs[..n], xs[n]);
      assert [d.greatest] + xs == [d.greatest] + xs[..n] + [xs[n]];
      assert [d.least] + xs == [d.least] + xs[..n] + [xs[n]];
    }
  }

  lemma ExtendMaximum(m: real, xs: seq<real>, x: real)
    requires IsMaximum(m, xs)
    ensures IsMaximum(if x > m then x else m, xs + [x])
  {
    var i :| 0 <= i < |xs| && xs[i] == m;
    assert (xs + [x])[i] == m && (xs + [x])[|xs|] == x;
  }

  lemma ExtendMinimum(m: real, xs: seq<real>, x: real)
    requires IsMinimum(m, xs)
    ensures IsMinimum(if x < m then x else m, xs + [x])
  {
    var i :| 0 <= i < |xs| && xs[i] == m;
    assert (xs + [x])[i] == m && (xs + [x])[|xs|] == x;
  }

  /** `e` says of these values how many they are, in how much time, their average, and their least
      and greatest together with the limits from which `min` and `max` start. */
  ghost predicate Reports(d: Doubles, name: Text, values: seq<real>, time: int, e: Event) {
    && e.name == name && e.count == |values| && e.time == time
    && e.avg == d.word(if values == [] then 0.0 else Sum(values) / |values| as real)
    && (exists m :: e.min == d.word(m) && IsMinimum(m, [d.greatest] + values))
    && (exists m :: e.max == d.word(m) && IsMaximum(m, [d.least] + values))
  }

  lemma SummaryReports(d: Doubles, name: Text, started: int, values: seq<real>, now: int)
    requires Printable(LoggedAll(Cleared(d, started), values), now)
    ensures Reports(d, name, values, now - started, Summary(d, name, LoggedAll(Cleared(d, started), values), now))
  {
    CountAndAverage(d, started, values);
    LimitsTakeIn(d, started, values);
  }

  /** The minimum printed is the minimum logged. */
  lemma MinimumIsRight(d: Doubles, now: int, xs: seq<real>)
    requires xs != [] && forall i :: 0 <= i < |xs| ==> xs[i] <= d.greatest
    ensures IsMinimum(LoggedAll(Cleared(d, now), xs).min, xs)
  {
    var m := LoggedAll(Cleared(d, now), xs).min;
    LimitsTakeIn(d, now, xs);
    var i :| 0 <= i < |[d.greatest] + xs| && ([d.greatest] + xs)[i] == m;
    forall k | 0 <= k < |xs| ensures m <= xs[k] {
      assert ([d.greatest] + xs)[k + 1] == xs[k];
    }
    assert xs[if i == 0 then 0 else i - 1] == m;
  }

  /** The maximum printed is the maximum logged exactly if one of the values logged is at least the
      smallest positive normal double, from which `max` starts. */
  lemma MaximumIsRightIff(d: Doubles, now: int, xs: seq<real>)
    ensures IsMaximum(LoggedAll(Cleared(d, now), xs).max, xs) <==> exists i :: 0 <= i < |xs| && xs[i] >= d.least
  {
    var m := LoggedAll(Cleared(d, now), xs).max;
    LimitsTakeIn(d, now, xs);
    var all := [d.least] + xs;
    assert all[0] == d.least;
    forall k | 0 <= k < |xs| ensures xs[k] <= m {
      assert all[k + 1] == xs[k];
    }
    var i :| 0 <= i < |all| && all[i] == m;
    if j :| 0 <= j < |xs| && xs[j] >= d.least {
      assert xs[if i == 0 then j else i - 1] == m;
    }
  }

  /** Values that are all zero or negative are reported with a positive maximum. */
  lemma NonPositiveValuesMisreported(d: Doubles, now: int, xs: seq<real>)
    requires d.least > 0.0 && forall i :: 0 <= i < |xs| ==> xs[i] <= 0.0
    ensures LoggedAll(Cleared(d, now), xs).max == d.least > 0.0
    ensures !IsMaximum(LoggedAll(Cleared(d, now), xs).max, xs)
  {
    MaximumIsRightIff(d, now, xs);
    LimitsTakeIn(d, now, xs);
    var all := [d.least] + xs;
    assert all[0] == d.least;
  }

  lemma LoggedAllAppend(s: Stats, xs: seq<real>, x: real)
    ensures LoggedAll(s, xs + [x]) == Logged(LoggedAll(s, xs), x)
  {
    assert (xs + [x])[..|xs|] == xs;
  }
}

/** The class of src/LogAggregate.cpp. */
module LogAggregates {
  import opened ByteOrder
  import opened Wire
  import opened Aggregates
  import opened Buffers

  class LogAggregate {
    const doubles: Doubles
    const host: Host
    var logCount: nat
    var aggregationStarted: int
    var min: real
    var max: real
    var sum: real

    function State(): Stats
      reads this
    {
      Stats(logCount, aggregationStarted, min, max, sum)
    }

    constructor (doubles: Doubles, host: Host, now: int)
      ensures State() == Cleared(doubles, now)
      ensures this.doubles == doubles && this.host == host
    {
      this.doubles, this.host := doubles, host;
      new;
      Clear(now);
    }

    method Log(x: real)
      modifies this
      ensures State() == Logged(old(State()), x)
    {
      logCount := logCount + 1;
      sum := sum + x;
      if x < min { min := x; }
      if x > max { max := x; }
    }

    method Clear(now: int)
      modifies this
      ensures State() == Cleared(doubles, now)
    {
      logCount := 0;
      aggregationStarted := now;
      min := doubles.greatest;
      max := doubles.least;
      sum := 0.0;
    }

    /** Stores a number of n bytes in network byte order. */
    method Store(buffer: array<Byte>, pos: nat, v: nat, n: nat) returns (end: nat)
      requires v < Pow256(n) && pos + n <= buffer.Length
      modifies buffer
      ensures end == pos + n
      ensures buffer[..] == Overwritten(old(buffer[..]), pos, Bytes(v, n))
    {
      var _, bytes := HostToNetwork(host, v, n);
      end := Copy(buffer, pos, bytes[..]);
    }

    method Serialize(buffer: array<Byte>, start: nat, now: int) returns (pos: nat)
      requires Printable(State(), now) && start + 32 <= buffer.Length
      modifies buffer
      ensures pos == start + 32
      ensures buffer[..] == Overwritten(old(buffer[..]), start, Record(Summary(doubles, [], State(), now)))
    {
      var e := Summary(doubles, [], State(), now);
      ghost var was := buffer[..];
      ghost var b1, b2, b3, b4 := Bytes(e.count, 4), Bytes(e.time, 4), Bytes(e.min, 8), Bytes(e.max, 8);
      hide Overwritten, Bytes, Pow256, Summary, Printable;
      pos := Store(buffer, start, e.count, 4);
      pos := Store(buffer, pos, e.time, 4);
      OverwrittenTwice(was, start, b1, b2);
      pos := Store(buffer, pos, e.min, 8);
      OverwrittenTwice(was, start, b1 + b2, b3);
      pos := Store(buffer, pos, e.max, 8);
      OverwrittenTwice(was, start, b1 + b2 + b3, b4);
      pos := Store(buffer, pos, e.avg, 8);
      OverwrittenTwice(was, start, b1 + b2 + b3 + b4, Bytes(e.avg, 8));
    }

    method SerializeNClear(buffer: array<Byte>, start: nat, now: int, later: int) returns (pos: nat)
      requires Printable(State(), now) && start + 32 <= buffer.Length
      modifies this, buffer
      ensures pos == start + 32
      ensures buffer[..] == Overwritten(old(buffer[..]), start, Record(Summary(doubles, [], old(State()), now)))
      ensures State() == Cleared(doubles, later)
    {
      pos := Serialize(buffer, start, now);
      Clear(later);
    }
  }
}
