/** A registry of stopwatches under unique names, with an optional capacity
    and batch operations over a list of names (or over every registered name,
    in insertion order, when the list is empty). A batch applies its effects
    timer by timer and stops at the first name that is not registered; the
    effects on the timers visited before that name remain.

    The registry is modelled on values: it maps each name to the state of
    the stopwatch registered under it (`map<string, TimerState>`). */
module Manager {
  import opened Errors
  import opened Watch

  type Timers = map<string, TimerState>

  /** The names a batch visits: the given ones, or every registered name in
      insertion order when none (an empty list) are given. */
  function Selected(names: seq<string>, order: seq<string>): (s: seq<string>)
    ensures |names| > 0 ==> s == names
    ensures |names| == 0 ==> s == order
  {
    if |names| == 0 then order else names
  }

  predicate AllWellFormed(s: Timers) {
    forall n :: n in s ==> s[n].WellFormed()
  }

  /** No timer holds a negative duration or an instant later than `now`. */
  predicate Ready(s: Timers, now: real) {
    forall n :: n in s ==> s[n].NonNegative() && s[n].ClockNotBefore(now)
  }

  predicate AllPresent(s: Timers, todo: seq<string>) {
    forall i :: 0 <= i < |todo| ==> todo[i] in s
  }

  // ---------------------------------------------------------------------
  // Batch operations on timer states
  // ---------------------------------------------------------------------

  /** starts, stops as written (it calls start on a Started timer), stops as
      its documentation intends (it calls stop), and resets. */
  datatype BatchOp = StartAll | StopAllAsWritten | StopAll | ResetAll

  /** What visiting one timer does: its new state, whether the visit counts
      towards the returned number, and the error it raises, if any. */
  datatype Visit = Visit(state: TimerState, counted: bool, error: Option<Error>)

  function VisitTimer(op: BatchOp, t: TimerState, now: real): (v: Visit)
    requires t.WellFormed()
    ensures v.state.WellFormed() && v.state.precision == t.precision
    ensures v.error.Some? ==> v.state == t && !v.counted
    ensures v.error.None? && t.NonNegative() && t.ClockNotBefore(now) ==>
              v.state.NonNegative() && v.state.ClockNotBefore(now)
  {
    match op
    case StartAll =>
      if t.status == Stopped then Visit(StartStep(t, now).value, true, None)
      else Visit(t, false, None)
    case StopAllAsWritten =>
      if t.status == Started then
        match StartStep(t, now)
        case Ok(u) => Visit(u, true, None)
        case Err(e) => Visit(t, false, Some(e))
      else Visit(t, false, None)
    case StopAll =>
      if t.status == Started then Visit(StopStep(t, now).value, true, None)
      else Visit(t, false, None)
    case ResetAll =>
      var u := if t.status == Started then StopStep(t, now).value else t;
      Visit(ResetStep(u).value, false, None)
  }

  /** A visit that raised nothing leaves a timer that a second visit neither
      changes nor counts: starting, stopping and resetting are idempotent. */
  lemma VisitSettles(op: BatchOp, t: TimerState, now: real)
    requires t.WellFormed() && VisitTimer(op, t, now).error.None?
    ensures var u := VisitTimer(op, t, now).state;
            VisitTimer(op, u, now) == Visit(u, false, None)
  {
  }

  /** The outcome of a batch: the timer states, the count, and the error that
      ended it early, if any. */
  datatype Batch = Batch(timers: Timers, count: nat, error: Option<Error>)

  function Report(b: Batch): Result<nat> {
    match b.error
    case Some(e) => Err(e)
    case None => Ok(b.count)
  }

  /** The batch over the names `todo`, from the timer states `s`, having
      already counted `count`. */
  function RunBatch(op: BatchOp, s: Timers, todo: seq<string>, now: real, count: nat): (b: Batch)
    requires AllWellFormed(s)
    ensures b.timers.Keys == s.Keys && AllWellFormed(b.timers)
    ensures count <= b.count <= count + |todo|
    decreases |todo|
  {
    if todo == [] then Batch(s, count, None)
    else if todo[0] !in s then Batch(s, count, Some(StopwatchNameError))
    else
      var v := VisitTimer(op, s[todo[0]], now);
      if v.error.Some? then Batch(s, count, v.error)
      else RunBatch(op, s[todo[0] := v.state], todo[1..], now, if v.counted then count + 1 else count)
  }

  /** get_watchs: the sum of the timers' elapsed times, each read with
      get_watch at precision `p`, added to `acc`. */
  function WatchTotal(s: Timers, todo: seq<string>, p: int, now: real, acc: real): (r: Result<real>)
    requires AllWellFormed(s)
    ensures r.Ok? <==> AllPresent(s, todo) && (todo == [] || p == 0 || p <= MAX_STOPWATCH_PRECISION)
    ensures r.Err? ==> r.error == StopwatchNameError || r.error == ValueError
    ensures r.Err? && AllPresent(s, todo) ==> r.error == ValueError
    ensures r.Err? && (p == 0 || p <= MAX_STOPWATCH_PRECISION) ==> r.error == StopwatchNameError
    ensures todo != [] && todo[0] !in s ==> r == Err(StopwatchNameError)
    ensures r.Ok? && Ready(s, now) ==> r.value >= acc
    decreases |todo|
  {
    if todo == [] then Ok(acc)
    else if todo[0] !in s then Err(StopwatchNameError)
    else match WatchValue(s[todo[0]], p, now)
      case Err(e) => Err(e)
      case Ok(x) => WatchTotal(s, todo[1..], p, now, acc + x)
  }

  // ---------------------------------------------------------------------
  // The registry's own bookkeeping
  // ---------------------------------------------------------------------

  /** The capacity rule: a positive maximum bounds the count; a negative
      one (truthy, and never above the count) admits nothing; 0 is no limit. */
  predicate WithinCapacity(count: nat, maxCount: int) {
    (maxCount > 0 ==> count <= maxCount) && (maxCount < 0 ==> count == 0)
  }

  /** The checks of add, in their order: empty name, taken name, capacity. */
  function AddCheck(name: string, taken: bool, count: nat, maxCount: int): (r: Outcome)
    ensures name == "" ==> r == Fail(ValueError)
    ensures name != "" && taken ==> r == Fail(StopwatchNameError)
    ensures r == Done <==> name != "" && !taken && (maxCount == 0 || count < maxCount)
    ensures r.Fail? && name != "" && !taken ==> r.error == MaxLimitError
    ensures r == Done && WithinCapacity(count, maxCount) ==> WithinCapacity(count + 1, maxCount)
  {
    if name == "" then Fail(ValueError)
    else if taken then Fail(StopwatchNameError)
    else if maxCount != 0 && count >= maxCount then Fail(MaxLimitError)
    else Done
  }

  /** With no names given, a batch visits every registered name exactly
      once, so it never meets an unknown one. */
  lemma SelectedEveryRegistered(names: seq<string>, order: seq<string>, instances: Timers, maxCount: int)
    requires Registry(order, instances, maxCount) && names == []
    ensures var todo := Selected(names, order);
            && AllPresent(instances, todo)
            && Distinct(todo)
            && (forall n :: n in instances ==> n in todo)
  {
  }

  /** s without the element x, the order of the rest kept. */
  function Without(s: seq<string>, x: string): (r: seq<string>)
    ensures forall y :: y in r <==> y in s && y != x
    ensures Distinct(s) ==> Distinct(r)
  {
    if s == [] then []
    else if s[0] == x then Without(s[1..], x)
    else
      var rest := Without(s[1..], x);
      assert Distinct(s) ==> s[0] !in s[1..];
      [s[0]] + rest
  }

  /** Removing a name that is not there changes nothing. */
  lemma {:induction false} WithoutAbsent(s: seq<string>, x: string)
    requires x !in s
    ensures Without(s, x) == s
  {
    if s != [] {
      WithoutAbsent(s[1..], x);
      assert s == [s[0]] + s[1..];
    }
  }

  /** Removing a name listed once at position k leaves the names before it
      and the names after it, in their order. */
  lemma {:induction false} WithoutKeepsOrder(s: seq<string>, x: string, k: nat)
    requires Distinct(s) && k < |s| && s[k] == x
    ensures Without(s, x) == s[..k] + s[k + 1..]
  {
    if k == 0 {
      assert x !in s[1..];
      WithoutAbsent(s[1..], x);
    } else {
      WithoutKeepsOrder(s[1..], x, k - 1);
      assert s[1..][..k - 1] == s[1..k] && s[1..][k..] == s[k + 1..];
      assert s[..k] == [s[0]] + s[1..k];
    }
  }

  /** The registry's invariant: the insertion order lists the registered
      names once each, the capacity holds, and every state is well formed. */
  predicate Registry(order: seq<string>, instances: Timers, maxCount: int) {
    && Distinct(order)
    && (forall n :: n in instances ==> n in order)
    && (forall n :: n in order ==> n in instances)
    && WithinCapacity(|instances|, maxCount)
    && AllWellFormed(instances)
  }

  lemma RegistrySameNames(order: seq<string>, a: Timers, b: Timers, maxCount: int)
    requires Registry(order, a, maxCount) && b.Keys == a.Keys && AllWellFormed(b)
    ensures Registry(order, b, maxCount)
  {
    assert |b| == |b.Keys| == |a.Keys| == |a|;
  }

  lemma RegistryReplace(order: seq<string>, s: Timers, name: string, t: TimerState, maxCount: int)
    requires Registry(order, s, maxCount) && name in s && t.WellFormed()
    ensures Registry(order, s[name := t], maxCount)
  {
    assert s[name := t].Keys == s.Keys;
    RegistrySameNames(order, s, s[name := t], maxCount);
  }

  // ---------------------------------------------------------------------
  // The loop invariants of the batch methods and of get_watchs
  // ---------------------------------------------------------------------

  /** The batch over the names from position i on, from the states cur with
      `count` already counted, ends in `goal`. */
  ghost predicate BatchInv(op: BatchOp, goal: Batch, todo: seq<string>, i: nat,
                           cur: Timers, now: real, count: nat)
  {
    && i <= |todo| && AllWellFormed(cur)
    && goal == RunBatch(op, cur, todo[i..], now, count)
  }

  lemma BatchInit(op: BatchOp, s0: Timers, todo: seq<string>, now: real)
    requires AllWellFormed(s0)
    ensures BatchInv(op, RunBatch(op, s0, todo, now, 0), todo, 0, s0, now, 0)
  {
    assert todo[0..] == todo;
  }

  lemma BatchMissing(op: BatchOp, goal: Batch, todo: seq<string>, i: nat,
                     cur: Timers, now: real, count: nat)
    requires BatchInv(op, goal, todo, i, cur, now, count) && i < |todo| && todo[i] !in cur
    ensures goal == Batch(cur, count, Some(StopwatchNameError))
  {
    assert todo[i..][0] == todo[i];
  }

  lemma BatchFails(op: BatchOp, goal: Batch, todo: seq<string>, i: nat,
                   cur: Timers, now: real, count: nat)
    requires BatchInv(op, goal, todo, i, cur, now, count) && i < |todo| && todo[i] in cur
    requires VisitTimer(op, cur[todo[i]], now).error.Some?
    ensures goal == Batch(cur, count, VisitTimer(op, cur[todo[i]], now).error)
  {
    assert todo[i..][0] == todo[i];
  }

  /** One visit of a batch, unfolded. */
  lemma BatchUnfold(op: BatchOp, cur: Timers, todo: seq<string>, now: real, count: nat)
    requires AllWellFormed(cur) && 0 < |todo| && todo[0] in cur
    requires VisitTimer(op, cur[todo[0]], now).error.None?
    ensures var v := VisitTimer(op, cur[todo[0]], now);
            && AllWellFormed(cur[todo[0] := v.state])
            && RunBatch(op, cur, todo, now, count) ==
               RunBatch(op, cur[todo[0] := v.state], todo[1..], now, if v.counted then count + 1 else count)
  {
  }

  lemma BatchStep(op: BatchOp, goal: Batch, todo: seq<string>, i: nat,
                  cur: Timers, now: real, count: nat)
    requires BatchInv(op, goal, todo, i, cur, now, count) && i < |todo| && todo[i] in cur
    requires VisitTimer(op, cur[todo[i]], now).error.None?
    ensures var v := VisitTimer(op, cur[todo[i]], now);
            BatchInv(op, goal, todo, i + 1, cur[todo[i] := v.state], now,
                     if v.counted then count + 1 else count)
  {
    var rest := todo[i..];
    assert rest[0] == todo[i] && rest[1..] == todo[i + 1..];
    BatchUnfold(op, cur, rest, now, count);
  }

  /** A visit that leaves the timer as it is and does not count. */
  lemma BatchSkip(op: BatchOp, goal: Batch, todo: seq<string>, i: nat,
                  cur: Timers, now: real, count: nat)
    requires BatchInv(op, goal, todo, i, cur, now, count) && i < |todo| && todo[i] in cur
    requires VisitTimer(op, cur[todo[i]], now) == Visit(cur[todo[i]], false, None)
    ensures BatchInv(op, goal, todo, i + 1, cur, now, count)
  {
    BatchStep(op, goal, todo, i, cur, now, count);
    assert cur[todo[i] := cur[todo[i]]] == cur;
  }

  lemma BatchExit(op: BatchOp, goal: Batch, todo: seq<string>, cur: Timers, now: real, count: nat)
    requires BatchInv(op, goal, todo, |todo|, cur, now, count)
    ensures goal == Batch(cur, count, None)
  {
    assert todo[|todo|..] == [];
  }

  // One lemma per visit the batch methods make, stated in the terms the
  // methods use.

  /** One visit of starts: a Stopped timer is started and counted; a
      Started one is left as it is. */
  lemma StartAllVisits(goal: Batch, todo: seq<string>, i: nat, cur: Timers, now: real, count: nat)
    requires BatchInv(StartAll, goal, todo, i, cur, now, count) && i < |todo| && todo[i] in cur
    ensures var t := cur[todo[i]];
            if t.status == Stopped
            then BatchInv(StartAll, goal, todo, i + 1, cur[todo[i] := StartStep(t, now).value], now, count + 1)
            else BatchInv(StartAll, goal, todo, i + 1, cur, now, count)
  {
    if cur[todo[i]].status == Stopped {
      BatchStep(StartAll, goal, todo, i, cur, now, count);
    } else {
      BatchSkip(StartAll, goal, todo, i, cur, now, count);
    }
  }

  lemma AsWrittenFails(goal: Batch, todo: seq<string>, i: nat, cur: Timers, now: real, count: nat)
    requires BatchInv(StopAllAsWritten, goal, todo, i, cur, now, count) && i < |todo| && todo[i] in cur
    requires cur[todo[i]].status == Started
    ensures goal == Batch(cur, count, Some(StatusError))
  {
    BatchFails(StopAllAsWritten, goal, todo, i, cur, now, count);
  }

  lemma AsWrittenSkips(goal: Batch, todo: seq<string>, i: nat, cur: Timers, now: real, count: nat)
    requires BatchInv(StopAllAsWritten, goal, todo, i, cur, now, count) && i < |todo| && todo[i] in cur
    requires cur[todo[i]].status == Stopped
    ensures BatchInv(StopAllAsWritten, goal, todo, i + 1, cur, now, count)
  {
    BatchSkip(StopAllAsWritten, goal, todo, i, cur, now, count);
  }

  /** One visit of the corrected stops: a Started timer is stopped and
      counted; a Stopped one is left as it is. */
  lemma StopAllVisits(goal: Batch, todo: seq<string>, i: nat, cur: Timers, now: real, count: nat)
    requires BatchInv(StopAll, goal, todo, i, cur, now, count) && i < |todo| && todo[i] in cur
    ensures cur[todo[i]].WellFormed()
    ensures var t := cur[todo[i]];
            if t.status == Started
            then BatchInv(StopAll, goal, todo, i + 1, cur[todo[i] := StopStep(t, now).value], now, count + 1)
            else BatchInv(StopAll, goal, todo, i + 1, cur, now, count)
  {
    if cur[todo[i]].status == Started {
      BatchStep(StopAll, goal, todo, i, cur, now, count);
    } else {
      BatchSkip(StopAll, goal, todo, i, cur, now, count);
    }
  }

  /** The state a reset visit leaves: stopped first if Started, then reset. */
  lemma ResetAllResets(goal: Batch, todo: seq<string>, i: nat, cur: Timers, now: real)
    requires BatchInv(ResetAll, goal, todo, i, cur, now, 0) && i < |todo| && todo[i] in cur
    ensures cur[todo[i]].WellFormed()
    ensures var t := cur[todo[i]];
            var u := if t.status == Started then StopStep(t, now).value else t;
            && u.status == Stopped
            && BatchInv(ResetAll, goal, todo, i + 1, cur[todo[i] := ResetStep(u).value], now, 0)
  {
    BatchStep(ResetAll, goal, todo, i, cur, now, 0);
  }

  /** The sum over the names from position i on, added to acc, is `goal`. */
  ghost predicate TotalInv(goal: Result<real>, s: Timers, todo: seq<string>, i: nat,
                           p: int, now: real, acc: real)
  {
    && i <= |todo| && AllWellFormed(s)
    && goal == WatchTotal(s, todo[i..], p, now, acc)
  }

  lemma TotalInit(s: Timers, todo: seq<string>, p: int, now: real)
    requires AllWellFormed(s)
    ensures TotalInv(WatchTotal(s, todo, p, now, 0.0), s, todo, 0, p, now, 0.0)
  {
    assert todo[0..] == todo;
  }

  lemma TotalStep(goal: Result<real>, s: Timers, todo: seq<string>, i: nat,
                  p: int, now: real, acc: real)
    requires TotalInv(goal, s, todo, i, p, now, acc) && i < |todo|
    ensures todo[i] !in s ==> goal == Err(StopwatchNameError)
    ensures todo[i] in s ==>
              match WatchValue(s[todo[i]], p, now)
              case Err(e) => goal == Err(e)
              case Ok(x) => TotalInv(goal, s, todo, i + 1, p, now, acc + x)
  {
    var rest := todo[i..];
    assert rest[0] == todo[i] && rest[1..] == todo[i + 1..];
  }

  lemma TotalExit(goal: Result<real>, s: Timers, todo: seq<string>, p: int, now: real, acc: real)
    requires TotalInv(goal, s, todo, |todo|, p, now, acc)
    ensures goal == Ok(acc)
  {
    assert todo[|todo|..] == [];
  }

  lemma UpdateTwice(m: Timers, k: string, a: TimerState, b: TimerState)
    ensures m[k := a][k := b] == m[k := b]
  {
  }

  class StopwatchManager {
    const maxCount: int               // 0 stands for no limit
    var instances: Timers
    var order: seq<string>            // the names, in insertion order

    predicate Valid()
      reads this
    {
      Registry(order, instances, maxCount)
    }

    constructor (maxCount: int)
      ensures Valid() && this.maxCount == maxCount
      ensures instances == map[] && order == []
    {
      this.maxCount := maxCount;
      instances := map[];
      order := [];
    }

    function GetCount(): (n: nat)
      reads this
      requires Valid()
      ensures n == |order|
      ensures maxCount > 0 ==> n <= maxCount
    {
      OrderCountsNames(order, instances, maxCount);
      |instances|
    }

    method Get(name: string) returns (r: Result<TimerState>)
      ensures r.Ok? <==> name != "" && name in instances
      ensures r.Ok? ==> r.value == instances[name]
      ensures r.Err? ==> r.error == (if name == "" then ValueError else StopwatchNameError)
    {
      if name == "" {
        return Err(ValueError);
      }
      if name !in instances {
        return Err(StopwatchNameError);
      }
      return Ok(instances[name]);
    }

    method Has(name: string) returns (r: Result<bool>)
      ensures r.Err? <==> name == ""
      ensures r.Err? ==> r.error == ValueError
      ensures r.Ok? ==> (r.value <==> name in instances)
    {
      if name == "" {
        return Err(ValueError);
      }
      return Ok(name in instances);
    }

    /** add: registers the stopwatch's state under a new name. */
    method Add(name: string, w: Stopwatch) returns (r: Outcome)
      requires Valid() && w.Valid()
      modifies this
      ensures Valid()
      ensures r == AddCheck(name, name in old(instances), old(|instances|), maxCount)
      ensures r == Done ==> instances == old(instances)[name := w.State()] && order == old(order) + [name]
      ensures r.Fail? ==> instances == old(instances) && order == old(order)
    {
      if name == "" {
        return Fail(ValueError);
      }
      if name in instances {
        return Fail(StopwatchNameError);
      }
      if maxCount != 0 {
        if |instances| >= maxCount {
          return Fail(MaxLimitError);
        }
      }
      instances := instances[name := w.State()];
      order := order + [name];
      return Done;
    }

    /** create: a new stopwatch with the default precision, added. */
    method Create(name: string) returns (r: Result<TimerState>)
      requires Valid()
      modifies this
      ensures Valid()
      ensures var check := AddCheck(name, name in old(instances), old(|instances|), maxCount);
              && (r.Ok? <==> check == Done)
              && (r.Err? ==> r.error == check.error && instances == old(instances) && order == old(order))
      ensures r.Ok? ==> && r.value == Initial(DEFAULT_PRECISION)
                        && instances == old(instances)[name := r.value]
                        && order == old(order) + [name]
    {
      var w := new Stopwatch(DEFAULT_PRECISION);
      var added := Add(name, w);
      if added.Fail? {
        return Err(added.error);
      }
      return Ok(w.State());
    }

    /** create_and_start: create, then start the new stopwatch, and return
        the registered one. */
    method CreateAndStart(name: string, now: real) returns (r: Result<TimerState>)
      requires Valid()
      modifies this
      ensures Valid()
      ensures var check := AddCheck(name, name in old(instances), old(|instances|), maxCount);
              && (r.Ok? <==> check == Done)
              && (r.Err? ==> r.error == check.error && instances == old(instances) && order == old(order))
      ensures r.Ok? ==> && r.value == StartStep(Initial(DEFAULT_PRECISION), now).value
                        && r.value.status == Started && r.value.start == Some(now)
                        && instances == old(instances)[name := r.value]
                        && order == old(order) + [name]
    {
      var created := Create(name);
      if created.Err? {
        return Err(created.error);
      }
      var started := StartStep(created.value, now).value;
      RegistryReplace(order, instances, name, started, maxCount);
      UpdateTwice(old(instances), name, created.value, started);
      instances := instances[name := started];
      r := Get(name);
    }

    method Remove(name: string) returns (r: Outcome)
      requires Valid()
      modifies this
      ensures Valid()
      ensures r.Fail? <==> name == "" || name !in old(instances)
      ensures r.Fail? ==> r.error == (if name == "" then ValueError else StopwatchNameError)
      ensures r.Fail? ==> instances == old(instances) && order == old(order)
      ensures r == Done ==> instances == old(instances) - {name} && order == Without(old(order), name)
    {
      if name == "" {
        return Fail(ValueError);
      }
      if name !in instances {
        return Fail(StopwatchNameError);
      }
      instances := instances - {name};
      order := Without(order, name);
      return Done;
    }

    method Clear()
      requires Valid()
      modifies this
      ensures Valid() && GetCount() == 0
      ensures instances == map[] && order == []
    {
      instances := map[];
      order := [];
    }

    /** starts: starts the Stopped timers among the selected ones and returns
        how many it started; Started ones are skipped. */
    method Starts(names: seq<string>, now: real) returns (r: Result<nat>)
      requires Valid()
      modifies this
      ensures Valid() && order == old(order)
      ensures var b := RunBatch(StartAll, old(instances), Selected(names, order), now, 0);
              instances == b.timers && r == Report(b)
    {
      var b := StartTimers(instances, Selected(names, order), now);
      RegistrySameNames(order, instances, b.timers, maxCount);
      instances := b.timers;
      r := Report(b);
    }

    /** stops as written: on a Started timer it calls start, which raises
        StatusError; Stopped timers are skipped. */
    method Stops(names: seq<string>, now: real) returns (r: Result<nat>)
      requires Valid()
      modifies this
      ensures Valid() && order == old(order)
      ensures var b := RunBatch(StopAllAsWritten, old(instances), Selected(names, order), now, 0);
              instances == b.timers && r == Report(b)
    {
      var b := StopTimersAsWritten(instances, Selected(names, order), now);
      RegistrySameNames(order, instances, b.timers, maxCount);
      instances := b.timers;
      r := Report(b);
    }

    /** stops as its documentation intends: stops the Started timers among
        the selected ones and returns how many it stopped. */
    method StopsIntended(names: seq<string>, now: real) returns (r: Result<nat>)
      requires Valid()
      modifies this
      ensures Valid() && order == old(order)
      ensures var b := RunBatch(StopAll, old(instances), Selected(names, order), now, 0);
              instances == b.timers && r == Report(b)
    {
      var b := StopTimers(instances, Selected(names, order), now);
      RegistrySameNames(order, instances, b.timers, maxCount);
      instances := b.timers;
      r := Report(b);
    }

    /** resets: stops each selected timer that is Started, then resets it;
        it reports nothing but the error that ends it early. */
    method Resets(names: seq<string>, now: real) returns (r: Outcome)
      requires Valid()
      modifies this
      ensures Valid() && order == old(order)
      ensures var b := RunBatch(ResetAll, old(instances), Selected(names, order), now, 0);
              && instances == b.timers
              && (r == Done <==> b.error.None?) && (r.Fail? ==> b.error == Some(r.error))
    {
      var b := ResetTimers(instances, Selected(names, order), now);
      RegistrySameNames(order, instances, b.timers, maxCount);
      instances := b.timers;
      r := if b.error.Some? then Fail(b.error.value) else Done;
    }

    /** get_watchs: the sum of get_watch over the selected timers. */
    method GetWatchs(names: seq<string>, p: int, now: real) returns (r: Result<real>)
      requires Valid()
      ensures r == WatchTotal(instances, Selected(names, order), p, now, 0.0)
    {
      r := SumWatches(instances, Selected(names, order), p, now);
    }
  }

  // ---------------------------------------------------------------------
  // The loops of the batch methods, over the registry's map
  // ---------------------------------------------------------------------

  method StartTimers(s: Timers, todo: seq<string>, now: real) returns (b: Batch)
    requires AllWellFormed(s)
    ensures b == RunBatch(StartAll, s, todo, now, 0)
  {
    ghost var goal := RunBatch(StartAll, s, todo, now, 0);
    var cur := s;
    BatchInit(StartAll, cur, todo, now);
    var count: nat := 0;
    var i := 0;
    while i < |todo|
      invariant BatchInv(StartAll, goal, todo, i, cur, now, count)
    {
      var name := todo[i];
      if name !in cur {
        BatchMissing(StartAll, goal, todo, i, cur, now, count);
        return Batch(cur, count, Some(StopwatchNameError));
      }
      var t := cur[name];
      StartAllVisits(goal, todo, i, cur, now, count);
      if t.status == Stopped {
        cur := cur[name := StartStep(t, now).value];
        count := count + 1;
      }
      i := i + 1;
    }
    BatchExit(StartAll, goal, todo, cur, now, count);
    return Batch(cur, count, None);
  }

  method StopTimersAsWritten(s: Timers, todo: seq<string>, now: real) returns (b: Batch)
    requires AllWellFormed(s)
    ensures b == RunBatch(StopAllAsWritten, s, todo, now, 0)
  {
    ghost var goal := RunBatch(StopAllAsWritten, s, todo, now, 0);
    var cur := s;
    BatchInit(StopAllAsWritten, cur, todo, now);
    var count: nat := 0;
    var i := 0;
    while i < |todo|
      invariant BatchInv(StopAllAsWritten, goal, todo, i, cur, now, count)
    {
      var name := todo[i];
      if name !in cur {
        BatchMissing(StopAllAsWritten, goal, todo, i, cur, now, count);
        return Batch(cur, count, Some(StopwatchNameError));
      }
      var t := cur[name];
      if t.status == Started {
        match StartStep(t, now)  // start where stop is meant
        case Err(e) =>
          AsWrittenFails(goal, todo, i, cur, now, count);
          return Batch(cur, count, Some(e));
        case Ok(_) =>
          // start on a Started timer always raises; the count the source
          // would add here is never reached
          assert false;
      } else {
        AsWrittenSkips(goal, todo, i, cur, now, count);
      }
      i := i + 1;
    }
    BatchExit(StopAllAsWritten, goal, todo, cur, now, count);
    return Batch(cur, count, None);
  }

  method StopTimers(s: Timers, todo: seq<string>, now: real) returns (b: Batch)
    requires AllWellFormed(s)
    ensures b == RunBatch(StopAll, s, todo, now, 0)
  {
    ghost var goal := RunBatch(StopAll, s, todo, now, 0);
    var cur := s;
    BatchInit(StopAll, cur, todo, now);
    var count: nat := 0;
    var i := 0;
    while i < |todo|
      invariant BatchInv(StopAll, goal, todo, i, cur, now, count)
    {
      var name := todo[i];
      if name !in cur {
        BatchMissing(StopAll, goal, todo, i, cur, now, count);
        return Batch(cur, count, Some(StopwatchNameError));
      }
      var t := cur[name];
      StopAllVisits(goal, todo, i, cur, now, count);
      if t.status == Started {
        cur := cur[name := StopStep(t, now).value];
        count := count + 1;
      }
      i := i + 1;
    }
    BatchExit(StopAll, goal, todo, cur, now, count);
    return Batch(cur, count, None);
  }

  method ResetTimers(s: Timers, todo: seq<string>, now: real) returns (b: Batch)
    requires AllWellFormed(s)
    ensures b == RunBatch(ResetAll, s, todo, now, 0)
  {
    ghost var goal := RunBatch(ResetAll, s, todo, now, 0);
    var cur := s;
    BatchInit(ResetAll, cur, todo, now);
    var i := 0;
    while i < |todo|
      invariant BatchInv(ResetAll, goal, todo, i, cur, now, 0)
    {
      var name := todo[i];
      if name !in cur {
        BatchMissing(ResetAll, goal, todo, i, cur, now, 0);
        return Batch(cur, 0, Some(StopwatchNameError));
      }
      var t := cur[name];
      ResetAllResets(goal, todo, i, cur, now);
      if t.status == Started {
        t := StopStep(t, now).value;
      }
      cur := cur[name := ResetStep(t).value];
      i := i + 1;
    }
    BatchExit(ResetAll, goal, todo, cur, now, 0);
    return Batch(cur, 0, None);
  }

  method SumWatches(s: Timers, todo: seq<string>, p: int, now: real) returns (r: Result<real>)
    requires AllWellFormed(s)
    ensures r == WatchTotal(s, todo, p, now, 0.0)
  {
    ghost var goal := WatchTotal(s, todo, p, now, 0.0);
    TotalInit(s, todo, p, now);
    var total := 0.0;
    var i := 0;
    while i < |todo|
      invariant TotalInv(goal, s, todo, i, p, now, total)
    {
      var name := todo[i];
      TotalStep(goal, s, todo, i, p, now, total);
      if name !in s {
        return Err(StopwatchNameError);
      }
      match WatchValue(s[name], p, now)
      case Err(e) =>
        return Err(e);
      case Ok(x) =>
        total := total + x;
      i := i + 1;
    }
    TotalExit(goal, s, todo, p, now, total);
    return Ok(total);
  }

  /** The insertion order lists each registered name exactly once. */
  lemma OrderCountsNames(order: seq<string>, instances: Timers, maxCount: int)
    requires Registry(order, instances, maxCount)
    ensures |order| == |instances|
  {
    var names := set i | 0 <= i < |order| :: order[i];
    assert names == instances.Keys;
    DistinctCard(order);
  }

  /** A sequence without repeats has as many elements as it has distinct
      elements. */
  lemma {:induction false} DistinctCard(s: seq<string>)
    requires Distinct(s)
    ensures |set i | 0 <= i < |s| :: s[i]| == |s|
  {
    if s != [] {
      var rest := s[1..];
      DistinctCard(rest);
      var a := set i | 0 <= i < |s| :: s[i];
      var b := set i | 0 <= i < |rest| :: rest[i];
      assert a == {s[0]} + b by {
        forall y | y in a ensures y in {s[0]} + b {
          var i :| 0 <= i < |s| && s[i] == y;
          if i > 0 { assert rest[i - 1] == y; }
        }
        forall y | y in b ensures y in a {
          var i :| 0 <= i < |rest| && rest[i] == y;
          assert s[i + 1] == y;
        }
      }
      forall i | 0 <= i < |rest| ensures rest[i] != s[0] {
        assert s[i + 1] == rest[i];
      }
    }
  }
}
