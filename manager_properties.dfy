/** Properties of the registry's batch operations (starts, stops, resets)
    and of get_watchs, stated on the specification functions that the
    StopwatchManager methods are proved against. */
module ManagerProperties {
  import opened Errors
  import opened Numerals
  import opened Watch
  import opened Manager

  /** The timers a batch counts, among the names it visits. */
  ghost function Counted(op: BatchOp, s: Timers, todo: seq<string>, now: real): set<string> {
    set n | n in todo && n in s && s[n].WellFormed() && VisitTimer(op, s[n], now).counted
  }

  lemma RestMembers(todo: seq<string>, n: string)
    requires 0 < |todo|
    ensures n in todo <==> n == todo[0] || n in todo[1..]
  {
    assert todo == [todo[0]] + todo[1..];
  }

  // ---------------------------------------------------------------------
  // What a batch does to the registry
  // ---------------------------------------------------------------------

  /** A name the batch does not visit keeps its state. */
  lemma {:induction false} BatchFrame(op: BatchOp, s: Timers, todo: seq<string>, now: real,
                                      count: nat, n: string)
    requires AllWellFormed(s) && n in s && n !in todo
    ensures RunBatch(op, s, todo, now, count).timers[n] == s[n]
    decreases |todo|
  {
    if todo != [] && todo[0] in s && VisitTimer(op, s[todo[0]], now).error.None? {
      RestMembers(todo, n);
      var v := VisitTimer(op, s[todo[0]], now);
      var s', c' := s[todo[0] := v.state], if v.counted then count + 1 else count;
      BatchUnfold(op, s, todo, now, count);
      BatchFrame(op, s', todo[1..], now, c', n);
    }
  }

  /** A batch that ran to the end has visited every selected name: each
      registered timer is in the state one visit leaves it in if it was
      selected (a name selected twice is visited twice, to the same
      effect), and as it was otherwise. */
  lemma {:induction false} BatchComplete(op: BatchOp, s: Timers, todo: seq<string>, now: real,
                                         count: nat, n: string)
    requires AllWellFormed(s) && n in s
    requires RunBatch(op, s, todo, now, count).error.None?
    ensures RunBatch(op, s, todo, now, count).timers[n] ==
            if n in todo then VisitTimer(op, s[n], now).state else s[n]
    decreases |todo|
  {
    if todo != [] {
      var v := VisitTimer(op, s[todo[0]], now);
      var s', c' := s[todo[0] := v.state], if v.counted then count + 1 else count;
      BatchUnfold(op, s, todo, now, count);
      BatchComplete(op, s', todo[1..], now, c', n);
      RestMembers(todo, n);
      if n == todo[0] {
        VisitSettles(op, s[n], now);
      }
    }
  }

  /** The timers counted over todo: the first name if its visit counts,
      and those counted over the rest after that visit, which never
      include the first name again. */
  lemma CountedSplit(op: BatchOp, s: Timers, s': Timers, todo: seq<string>, now: real)
    requires 0 < |todo| && todo[0] in s && s[todo[0]].WellFormed()
    requires s' == s[todo[0] := VisitTimer(op, s[todo[0]], now).state]
    requires VisitTimer(op, s[todo[0]], now).error.None?
    ensures todo[0] !in Counted(op, s', todo[1..], now)
    ensures Counted(op, s, todo, now) ==
            (if VisitTimer(op, s[todo[0]], now).counted then {todo[0]} else {}) + Counted(op, s', todo[1..], now)
  {
    var head: set<string> := if VisitTimer(op, s[todo[0]], now).counted then {todo[0]} else {};
    forall n ensures n in Counted(op, s, todo, now) <==> n in head + Counted(op, s', todo[1..], now) {
      CountedMember(op, s, s', todo, now, n);
    }
  }

  lemma CountedMember(op: BatchOp, s: Timers, s': Timers, todo: seq<string>, now: real, n: string)
    requires 0 < |todo| && todo[0] in s && s[todo[0]].WellFormed()
    requires s' == s[todo[0] := VisitTimer(op, s[todo[0]], now).state]
    requires VisitTimer(op, s[todo[0]], now).error.None?
    ensures n == todo[0] ==> n !in Counted(op, s', todo[1..], now)
    ensures n in Counted(op, s, todo, now) <==>
            (n == todo[0] && VisitTimer(op, s[todo[0]], now).counted) || n in Counted(op, s', todo[1..], now)
  {
    RestMembers(todo, n);
    if n == todo[0] {
      VisitSettles(op, s[n], now);
    }
  }

  /** A batch that ran to the end counted each selected timer whose visit
      counts once, however often it was named. */
  lemma {:induction false} BatchCount(op: BatchOp, s: Timers, todo: seq<string>, now: real, count: nat)
    requires AllWellFormed(s)
    requires RunBatch(op, s, todo, now, count).error.None?
    ensures RunBatch(op, s, todo, now, count).count == count + |Counted(op, s, todo, now)|
    decreases |todo|
  {
    if todo != [] {
      var v := VisitTimer(op, s[todo[0]], now);
      var s' := s[todo[0] := v.state];
      BatchUnfold(op, s, todo, now, count);
      BatchCount(op, s', todo[1..], now, if v.counted then count + 1 else count);
      CountedSplit(op, s, s', todo, now);
    }
  }

  lemma PresentRest(s: Timers, s': Timers, todo: seq<string>)
    requires 0 < |todo| && todo[0] in s && s'.Keys == s.Keys
    ensures AllPresent(s, todo) <==> AllPresent(s', todo[1..])
  {
    if AllPresent(s', todo[1..]) {
      forall i | 0 < i < |todo| ensures todo[i] in s {
        assert todo[i] == todo[1..][i - 1];
      }
    }
  }

  /** starts, intended stops and resets fail exactly when a selected name is
      not registered, and then with StopwatchNameError. */
  lemma {:induction false} BatchErrors(op: BatchOp, s: Timers, todo: seq<string>, now: real, count: nat)
    requires AllWellFormed(s) && op != StopAllAsWritten
    ensures var b := RunBatch(op, s, todo, now, count);
            && (b.error.None? <==> AllPresent(s, todo))
            && (b.error.Some? ==> b.error == Some(StopwatchNameError))
    decreases |todo|
  {
    if todo != [] && todo[0] in s {
      var v := VisitTimer(op, s[todo[0]], now);
      var s', c' := s[todo[0] := v.state], if v.counted then count + 1 else count;
      BatchUnfold(op, s, todo, now, count);
      BatchErrors(op, s', todo[1..], now, c');
      PresentRest(s, s', todo);
    }
  }

  /** Running the names a + b is running a, then b from where a left off,
      unless a ended in an error: a failing batch keeps the effects of the
      visits before the failing name. */
  lemma {:induction false} BatchCompose(op: BatchOp, s: Timers, a: seq<string>, b: seq<string>,
                                        now: real, count: nat)
    requires AllWellFormed(s)
    ensures var x := RunBatch(op, s, a, now, count);
            RunBatch(op, s, a + b, now, count) ==
            if x.error.Some? then x else RunBatch(op, x.timers, b, now, x.count)
    decreases |a|
  {
    if a == [] {
      assert a + b == b;
    } else {
      assert (a + b)[0] == a[0] && (a + b)[1..] == a[1..] + b;
      if a[0] in s && VisitTimer(op, s[a[0]], now).error.None? {
        var v := VisitTimer(op, s[a[0]], now);
        var s', c' := s[a[0] := v.state], if v.counted then count + 1 else count;
        BatchUnfold(op, s, a, now, count);
        BatchCompose(op, s', a[1..], b, now, c');
      }
    }
  }

  /** A batch keeps every timer free of negative durations and of instants
      later than the clock it reads. */
  lemma {:induction false} BatchKeepsReady(op: BatchOp, s: Timers, todo: seq<string>, now: real, count: nat)
    requires AllWellFormed(s) && Ready(s, now)
    ensures Ready(RunBatch(op, s, todo, now, count).timers, now)
    decreases |todo|
  {
    if todo != [] && todo[0] in s && VisitTimer(op, s[todo[0]], now).error.None? {
      var v := VisitTimer(op, s[todo[0]], now);
      var s', c' := s[todo[0] := v.state], if v.counted then count + 1 else count;
      BatchUnfold(op, s, todo, now, count);
      ReadyAfterVisit(op, s, todo[0], now);
      BatchKeepsReady(op, s', todo[1..], now, c');
    }
  }

  lemma ReadyAfterVisit(op: BatchOp, s: Timers, name: string, now: real)
    requires AllWellFormed(s) && Ready(s, now) && name in s
    requires VisitTimer(op, s[name], now).error.None?
    ensures Ready(s[name := VisitTimer(op, s[name], now).state], now)
  {
  }

  // ---------------------------------------------------------------------
  // Each batch method, as a whole
  // ---------------------------------------------------------------------

  /** starts: with every selected name registered, it starts exactly the
      selected timers that were Stopped and returns how many there were. */
  lemma StartsStartsStopped(s: Timers, todo: seq<string>, now: real)
    requires AllWellFormed(s)
    ensures var b := RunBatch(StartAll, s, todo, now, 0);
            && (b.error.None? <==> AllPresent(s, todo))
            && (b.error.None? ==>
                  && b.count == |set n | n in todo && n in s && s[n].status == Stopped|
                  && forall n :: n in s ==>
                       b.timers[n] == if n in todo && s[n].status == Stopped then StartStep(s[n], now).value else s[n])
  {
    BatchErrors(StartAll, s, todo, now, 0);
    if RunBatch(StartAll, s, todo, now, 0).error.None? {
      BatchCount(StartAll, s, todo, now, 0);
      assert Counted(StartAll, s, todo, now) == set n | n in todo && n in s && s[n].status == Stopped;
      forall n | n in s {
        BatchComplete(StartAll, s, todo, now, 0, n);
      }
    }
  }

  /** stops as written: it never stops a timer and never counts one; it
      ends without error exactly when every selected name is registered
      and Stopped. */
  lemma {:induction false} AsWrittenStopsNothing(s: Timers, todo: seq<string>, now: real, count: nat)
    requires AllWellFormed(s)
    ensures var b := RunBatch(StopAllAsWritten, s, todo, now, count);
            && b.timers == s && b.count == count
            && (b.error.None? <==>
                  forall i :: 0 <= i < |todo| ==> todo[i] in s && s[todo[i]].status == Stopped)
            && (b.error.Some? ==> b.error == Some(StopwatchNameError) || b.error == Some(StatusError))
            && (b.error.Some? && AllPresent(s, todo) ==> b.error == Some(StatusError))
    decreases |todo|
  {
    if todo != [] && todo[0] in s && s[todo[0]].status == Stopped {
      assert s[todo[0] := s[todo[0]]] == s;
      AsWrittenStopsNothing(s, todo[1..], now, count);
      PresentRest(s, s, todo);
      assert forall i :: 0 < i < |todo| ==> todo[i] == todo[1..][i - 1];
    }
  }

  /** stops as intended: with every selected name registered, it stops
      exactly the selected timers that were Started and returns how many
      there were. */
  lemma StopsStopsStarted(s: Timers, todo: seq<string>, now: real)
    requires AllWellFormed(s)
    ensures var b := RunBatch(StopAll, s, todo, now, 0);
            && (b.error.None? <==> AllPresent(s, todo))
            && (b.error.None? ==>
                  && b.count == |set n | n in todo && n in s && s[n].status == Started|
                  && forall n :: n in s ==>
                       b.timers[n] == if n in todo && s[n].status == Started then StopStep(s[n], now).value else s[n])
  {
    BatchErrors(StopAll, s, todo, now, 0);
    if RunBatch(StopAll, s, todo, now, 0).error.None? {
      BatchCount(StopAll, s, todo, now, 0);
      assert Counted(StopAll, s, todo, now) == set n | n in todo && n in s && s[n].status == Started;
      forall n | n in s {
        BatchComplete(StopAll, s, todo, now, 0, n);
      }
    }
  }

  /** resets: with every selected name registered, every selected timer is
      back in its initial state (its default precision kept), whatever its
      status was; the others are untouched. */
  lemma ResetsResetSelected(s: Timers, todo: seq<string>, now: real)
    requires AllWellFormed(s)
    ensures var b := RunBatch(ResetAll, s, todo, now, 0);
            && (b.error.None? <==> AllPresent(s, todo))
            && (b.error.None? ==>
                  forall n :: n in s ==>
                    b.timers[n] == if n in todo then Initial(s[n].precision) else s[n])
  {
    BatchErrors(ResetAll, s, todo, now, 0);
    if RunBatch(ResetAll, s, todo, now, 0).error.None? {
      forall n | n in s {
        BatchComplete(ResetAll, s, todo, now, 0, n);
      }
    }
  }

  /** One Started timer is enough to tell stops as written from stops as
      intended: the first raises StatusError and stops nothing, the second
      stops the timer and counts it. */
  lemma StopsFindingWitness()
    ensures var t := StartStep(Initial(DEFAULT_PRECISION), 0.0).value;
            var s := map["t" := t];
            && RunBatch(StopAllAsWritten, s, ["t"], 1.5, 0) == Batch(s, 0, Some(StatusError))
            && RunBatch(StopAll, s, ["t"], 1.5, 0).count == 1
            && RunBatch(StopAll, s, ["t"], 1.5, 0).timers["t"].status == Stopped
            && RunBatch(StopAll, s, ["t"], 1.5, 0).timers["t"].total == 1.5
  {
    var t := StartStep(Initial(DEFAULT_PRECISION), 0.0).value;
    var s := map["t" := t];
    assert AllWellFormed(s);
    var todo := ["t"];
    assert todo[1..] == [];
  }

  // ---------------------------------------------------------------------
  // get_watchs
  // ---------------------------------------------------------------------

  lemma RoundZero(q: int)
    ensures Round(0.0, q) == 0.0
  {
    assert RoundedUnits(0.0, q) == 0;
  }

  /** Timers that are all Stopped read the same total whatever the clock. */
  lemma {:induction false} StoppedTotalIgnoresClock(s: Timers, todo: seq<string>, p: int,
                                                    now1: real, now2: real, acc: real)
    requires AllWellFormed(s)
    requires forall n :: n in s ==> s[n].status == Stopped
    ensures WatchTotal(s, todo, p, now1, acc) == WatchTotal(s, todo, p, now2, acc)
    decreases |todo|
  {
    if todo != [] && todo[0] in s {
      var t := s[todo[0]];
      assert WatchValue(t, p, now1) == WatchValue(t, p, now2);
      match WatchValue(t, p, now1)
      case Err(_) =>
      case Ok(x) => StoppedTotalIgnoresClock(s, todo[1..], p, now1, now2, acc + x);
    }
  }

  /** Timers in their initial state add nothing to the total. */
  lemma {:induction false} InitialTotal(s: Timers, todo: seq<string>, p: int, now: real, acc: real)
    requires AllWellFormed(s) && (p == 0 || p <= MAX_STOPWATCH_PRECISION)
    requires forall i :: 0 <= i < |todo| ==> todo[i] in s && s[todo[i]] == Initial(s[todo[i]].precision)
    ensures WatchTotal(s, todo, p, now, acc) == Ok(acc)
    decreases |todo|
  {
    if todo != [] {
      var t := s[todo[0]];
      var q := EffectivePrecision(p, t.precision).value;
      RoundZero(q);
      assert WatchValue(t, p, now) == Ok(0.0);
      assert forall i :: 0 <= i < |todo[1..]| ==> todo[1..][i] == todo[i + 1];
      InitialTotal(s, todo[1..], p, now, acc + 0.0);
    }
  }

  /** After a resets that ran to the end, get_watchs over the same names
      reads 0 at any valid precision. */
  lemma ResetThenWatchsZero(s: Timers, todo: seq<string>, p: int, now: real)
    requires AllWellFormed(s) && AllPresent(s, todo) && (p == 0 || p <= MAX_STOPWATCH_PRECISION)
    ensures var b := RunBatch(ResetAll, s, todo, now, 0);
            b.error.None? && WatchTotal(b.timers, todo, p, now, 0.0) == Ok(0.0)
  {
    var b := RunBatch(ResetAll, s, todo, now, 0);
    ResetsResetSelected(s, todo, now);
    forall i | 0 <= i < |todo|
      ensures todo[i] in b.timers && b.timers[todo[i]] == Initial(b.timers[todo[i]].precision)
    {
      assert todo[i] in todo;
    }
    InitialTotal(b.timers, todo, p, now, 0.0);
  }
}
