/** What each step of the profiling machine leaves, in terms of what was logged, tracked, visited and
    sent, and what that adds up to over whole runs. */
module ProfilingEffects {
  import opened ByteOrder
  import opened Wire
  import opened Aggregates
  import opened Senders
  import opened Profiles
  import opened Profiling

  /** One aggregate has one value more. */
  ghost predicate OneMore(was: Stats, now: Stats, x: real) {
    && now.count == was.count + 1 && now.sum == was.sum + x && now.started == was.started
    && IsMinimum(now.min, [was.min, x]) && IsMaximum(now.max, [was.max, x])
  }

  /** Nothing is logged, tracked, visited or sent. */
  ghost predicate SameHistory(s: System, s': System) {
    && s'.logged == s.logged && s'.taken == s.taken && s'.tracked == s.tracked
    && s'.visits == s.visits && s'.sent == s.sent && s'.earlier == s.earlier
  }

  ghost predicate Recorded(c: Config, s: System, step: Step, s': System) {
    && |s'.p.stats| == |s.p.stats| == |s.logged| == |s.taken|
    && match step
       case LogValue(k, x) =>
         && k < |s.p.stats|
         && OneMore(s.p.stats[k], s'.p.stats[k], x)
         && (forall j :: 0 <= j < |s.p.stats| && j != k ==> s'.p.stats[j] == s.p.stats[j])
         && s'.logged == s.logged[k := s.logged[k] + [x]]
         && s'.p.table == s.p.table && s'.p.next == s.p.next && s'.call == s.call
         && s'.taken == s.taken && s'.tracked == s.tracked && s'.visits == s.visits
         && s'.sent == s.sent && s'.earlier == s.earlier
       case Track(name) =>
         && s'.tracked == s.tracked + [name] && Exact(s'.p.table, s'.tracked)
         && s'.p.stats == s.p.stats && s'.p.next == s.p.next && s'.call == s.call
         && s'.logged == s.logged && s'.taken == s.taken && s'.visits == s.visits
         && s'.sent == s.sent && s'.earlier == s.earlier
       case StartCall =>
         && s'.p.stats == s.p.stats && s'.call.Writing? && s'.call.shown == []
         && (s'.call.sender.Sender? <==> s.p.next == |s.p.stats|)
         && s'.call.buf == Head(c.group, s'.call.sender) && s'.call.from == s'.p.next
         && if s.p.next == |s.p.stats| then
              && s'.p.next == 0 && Exact(s'.p.table, []) && s'.tracked == [] && s'.visits == [] && s'.sent == []
              && s'.earlier == s.earlier + s.sent && s'.logged == s.logged && s'.taken == s.taken
            else
              SameHistory(s, s') && s'.p == s.p
       case Visit(clock) =>
         && s.call.Writing? && s.p.next < |s.p.stats|
         && var k := s.p.next;
         && s'.p.next == k + 1 && s'.p.stats[k].count == 0 && s'.p.stats[k].started == clock.clear
         && (forall j :: 0 <= j < |s.p.stats| && j != k ==> s'.p.stats[j] == s.p.stats[j])
         && s'.taken == s.taken[k := |s.logged[k]|] && |s'.visits| == |s.visits| + 1 && s.visits <= s'.visits
         && s'.visits[|s.visits|].count == s.p.stats[k].count
         && s'.call.Writing? && s'.call.sender == s.call.sender && s'.call.from == s.call.from
         && s'.logged == s.logged && s'.tracked == s.tracked && s'.p.table == s.p.table
         && s'.sent == s.sent && s'.earlier == s.earlier
       case EndCall =>
         && s.call.Writing? && s'.call.Idle? && s'.p == s.p
         && |s'.sent| == |s.sent| + 1 && s.sent <= s'.sent
         && s'.sent[|s.sent|].bytes == s.call.buf && s'.sent[|s.sent|].sender == s.call.sender
         && s'.sent[|s.sent|].shown == s.call.shown && s'.sent[|s.sent|].kinds == s.call.kinds
         && s'.logged == s.logged && s'.taken == s.taken && s'.tracked == s.tracked
         && s'.visits == s.visits && s'.earlier == s.earlier
  }

  lemma LoggedIsOneMore(s: Stats, x: real)
    ensures OneMore(s, Logged(s, x), x)
  {
    assert [s.min, x][0] == s.min && [s.min, x][1] == x;
    assert [s.max, x][0] == s.max && [s.max, x][1] == x;
  }

  lemma LogRecorded(c: Config, size: nat, s: System, k: nat, x: real)
    requires Inv(c, size, s) && k < |s.p.stats|
    ensures Recorded(c, s, LogValue(k, x), LogStep(s, k, x))
  {
    hide CallOk, PassOk, Accounted, SendersKept, OneMore, Logged;
    LoggedIsOneMore(s.p.stats[k], x);
  }

  lemma TrackRecorded(c: Config, size: nat, s: System, name: CString)
    requires Inv(c, size, s) && NulFree(name.text)
    ensures Recorded(c, s, Track(name), TrackStep(s, name))
  {
    TrackKeeps(c, size, s, name);
    hide CallOk, PassOk, Accounted, Tracked, TrackedAll, Exact;
    TableIsExact(s.tracked + [name]);
  }

  lemma StartRecorded(c: Config, size: nat, s: System)
    requires Inv(c, size, s) && s.call.Idle?
    ensures Recorded(c, s, StartCall, StartStep(c, s))
  {
    hide CallOk, PassOk, Accounted, Exact, Head, TopText, TrackedAll;
    TableIsExact([]);
    assert TrackedAll(Empty(), []) == Empty() by { NothingTracked(); }
  }

  lemma NothingTracked()
    ensures TrackedAll(Empty(), []) == Empty()
  {
  }

  lemma VisitRecorded(c: Config, size: nat, s: System, clock: Readings)
    requires Inv(c, size, s) && Enabled(c, size, s, Visit(clock))
    ensures Recorded(c, s, Visit(clock), VisitStep(c, s, clock))
  {
    hide CallOk, PassOk, Accounted, SendersKept, AllEventBytes, Printable;
  }

  lemma EndRecorded(c: Config, size: nat, s: System)
    requires Inv(c, size, s) && s.call.Writing?
    ensures Recorded(c, s, EndCall, EndStep(s))
  {
    hide CallOk, PassOk, Accounted, SendersKept;
  }

  /** Each step records exactly what the code does. */
  lemma StepRecords(c: Config, size: nat, s: System, step: Step)
    requires Inv(c, size, s) && Enabled(c, size, s, step)
    ensures Recorded(c, s, step, Apply(c, size, s, step))
  {
    hide Inv, Recorded, LogStep, TrackStep, StartStep, VisitStep, EndStep;
    assert |s.logged| == |s.p.stats| by { LoggedFits(c, size, s); }
    match step
    case LogValue(k, x) => LogRecorded(c, size, s, k, x);
    case Track(name) => TrackRecorded(c, size, s, name);
    case StartCall => StartRecorded(c, size, s);
    case Visit(clock) => VisitRecorded(c, size, s, clock);
    case EndCall => EndRecorded(c, size, s);
  }

  lemma LoggedFits(c: Config, size: nat, s: System)
    requires Inv(c, size, s)
    ensures |s.logged| == |s.p.stats| == |c.names| && ProfileOk(c, s.p)
  {
  }

  // ---------- whole runs ----------

  /** The values a run logs for event type k, in order. */
  function ValuesIn(steps: seq<Step>, k: nat): seq<real> {
    if steps == [] then [] else
      (if steps[0].LogValue? && steps[0].event == k then [steps[0].value] else []) + ValuesIn(steps[1..], k)
  }

  /** The names a run tracks, in order. */
  function NamesIn(steps: seq<Step>): seq<CString> {
    if steps == [] then [] else (if steps[0].Track? then [steps[0].name] else []) + NamesIn(steps[1..])
  }

  lemma LoggedByStep(c: Config, s: System, step: Step, s': System, k: nat)
    requires Recorded(c, s, step, s') && k < |s.logged|
    ensures |s'.logged| == |s.logged|
    ensures s'.logged[k] == s.logged[k] + if step.LogValue? && step.event == k then [step.value] else []
  {
    hide OneMore, Exact, Head;
    assert s.logged[k] + [] == s.logged[k];
  }

  /** In any run, the values recorded as logged are exactly those the threads logged. */
  lemma {:induction false} LoggedIsWhatWasLogged(c: Config, size: nat, s: System, steps: seq<Step>, k: nat)
    requires Inv(c, size, s) && size >= 128 && IsRun(c, size, s, steps) && k < |s.p.stats|
    ensures |After(c, size, s, steps).logged| == |s.logged| == |s.p.stats|
    ensures After(c, size, s, steps).logged[k] == s.logged[k] + ValuesIn(steps, k)
    decreases |steps|
  {
    hide Inv, Enabled, Apply, Recorded;
    LoggedFits(c, size, s);
    if steps == [] {
      assert s.logged[k] + [] == s.logged[k];
    } else {
      var s' := Apply(c, size, s, steps[0]);
      StepKeeps(c, size, s, steps[0]);
      StepRecords(c, size, s, steps[0]);
      LoggedByStep(c, s, steps[0], s', k);
      LoggedFits(c, size, s');
      LoggedIsWhatWasLogged(c, size, s', steps[1..], k);
      Associative(s.logged[k], if steps[0].LogValue? && steps[0].event == k then [steps[0].value] else [], ValuesIn(steps[1..], k));
    }
  }

  lemma TrackedByStep(c: Config, s: System, step: Step, s': System)
    requires Recorded(c, s, step, s') && !step.StartCall?
    ensures s'.tracked == s.tracked + if step.Track? then [step.name] else []
  {
    hide OneMore, Exact, Head;
    assert s.tracked + [] == s.tracked;
  }

  /** Until the next call starts, the names recorded as tracked are exactly those the threads
      tracked. */
  lemma {:induction false} TrackedIsWhatWasTracked(c: Config, size: nat, s: System, steps: seq<Step>)
    requires Inv(c, size, s) && size >= 128 && IsRun(c, size, s, steps) && StartCall !in steps
    ensures After(c, size, s, steps).tracked == s.tracked + NamesIn(steps)
    decreases |steps|
  {
    hide Inv, Enabled, Apply, Recorded;
    if steps == [] {
      assert s.tracked + [] == s.tracked;
    } else {
      LoggedFits(c, size, s);
      var s' := Apply(c, size, s, steps[0]);
      StepKeeps(c, size, s, steps[0]);
      StepRecords(c, size, s, steps[0]);
      TrackedByStep(c, s, steps[0], s');
      TrackedIsWhatWasTracked(c, size, s', steps[1..]);
      Associative(s.tracked, if steps[0].Track? then [steps[0].name] else [], NamesIn(steps[1..]));
    }
  }

  /** Conservation from the construction on, in terms of the run itself: of the values a run logs for
      an event type, each is counted in a packet or still in the aggregate. */
  lemma LoggedValuesConserved(c: Config, size: nat, now: int, steps: seq<Step>, k: nat)
    requires size >= 128 && NamesOk(c) && k < |c.names|
    requires Inv(c, size, Initial(c, now)) && IsRun(c, size, Initial(c, now), steps)
    ensures var s := After(c, size, Initial(c, now), steps);
      && |s.p.stats| == |c.names|
      && |ValuesIn(steps, k)| == CountInParts(s.earlier + s.sent, k) + CountInCall(s.call, k) + s.p.stats[k].count
  {
    hide Inv, IsRun, After, CountInParts, CountInCall, ValuesIn;
    assert Reachable(c, size, After(c, size, Initial(c, now), steps));
    EventCountsConserved(c, size, After(c, size, Initial(c, now), steps), k);
    LoggedIsWhatWasLogged(c, size, Initial(c, now), steps, k);
    assert Initial(c, now).logged[k] == [];
    assert [] + ValuesIn(steps, k) == ValuesIn(steps, k);
  }

  /** Logging without interruption leaves what ProfileData::Log promises: the value in its aggregate,
      and the thread tracked if the event is the tracked one. */
  lemma UninterruptedLog(c: Config, size: nat, s: System, k: nat, x: real, tracks: bool, name: CString)
    requires Inv(c, size, s) && size >= 128 && k < |s.p.stats| && NulFree(name.text)
    ensures Enabled(c, size, s, LogValue(k, x))
    ensures var s' := Apply(c, size, s, LogValue(k, x));
      && Inv(c, size, s') && Enabled(c, size, s', Track(name))
      && (if tracks then Apply(c, size, s', Track(name)) else s').p ==
         Profile(s.p.stats[k := Logged(s.p.stats[k], x)], if tracks then Tracked(s.p.table, name) else s.p.table, s.p.next)
  {
    LoggedFits(c, size, s);
    StepKeeps(c, size, s, LogValue(k, x));
    hide Inv, Tracked, Logged;
  }

  // ---------- nobody is stuck ----------

  /** Any thread can always log and track; the serializing thread can start a call whenever none is
      under way, and otherwise ends it exactly if there is no room or no aggregate left, and visits
      the next aggregate if that can be printed. */
  lemma ThreadsGoOn(c: Config, size: nat, s: System, k: nat, x: real, name: CString, clock: Readings)
    requires Inv(c, size, s)
    ensures k < |c.names| ==> Enabled(c, size, s, LogValue(k, x))
    ensures NulFree(name.text) ==> Enabled(c, size, s, Track(name))
    ensures Enabled(c, size, s, StartCall) <==> s.call.Idle?
    ensures Enabled(c, size, s, EndCall) <==> s.call.Writing? && (|s.call.buf| > size - 64 || s.p.next == |c.names|)
    ensures Enabled(c, size, s, Visit(clock)) <==>
      s.call.Writing? && |s.call.buf| <= size - 64 && s.p.next < |c.names| && Printable(s.p.stats[s.p.next], clock.read)
  {
    hide CallOk, PassOk, Accounted, SendersKept, Printable;
  }

  /** A run can be prolonged by whatever step is possible at its end. */
  lemma {:induction false} RunGoesOn(c: Config, size: nat, s: System, steps: seq<Step>, step: Step)
    requires Inv(c, size, s) && size >= 128 && IsRun(c, size, s, steps)
    requires ProfileOk(c, After(c, size, s, steps).p) && Enabled(c, size, After(c, size, s, steps), step)
    ensures IsRun(c, size, s, steps + [step])
    ensures After(c, size, s, steps + [step]) == Apply(c, size, After(c, size, s, steps), step)
    decreases |steps|
  {
    hide Inv, Enabled, Apply;
    LoggedFits(c, size, s);
    if steps == [] {
      StepKeeps(c, size, s, step);
      assert (steps + [step])[1..] == [];
    } else {
      StepKeeps(c, size, s, steps[0]);
      RunGoesOn(c, size, Apply(c, size, s, steps[0]), steps[1..], step);
      assert (steps + [step])[1..] == steps[1..] + [step];
    }
  }
}
