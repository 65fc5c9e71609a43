/** The registry driven the way the library's own manager test drives it
    (tests/manager.py), with the clock readings as parameters. */
module ManagerScenarios {
  import opened Errors
  import opened Numerals
  import opened Watch
  import opened Manager
  import opened ManagerProperties

  /** The names the test registers in bulk: "tests::test0" .. "tests::test99". */
  function TestName(k: nat): string {
    "tests::test" + NatToString(k)
  }

  lemma TestNameInjective(a: nat, b: nat)
    requires TestName(a) == TestName(b)
    ensures a == b
  {
    var prefix := "tests::test";
    assert NatToString(a) == TestName(a)[|prefix|..];
    assert NatToString(b) == TestName(b)[|prefix|..];
    NatToStringInjective(a, b);
  }

  /** The first k bulk names. */
  ghost function TestNames(k: nat): set<string> {
    if k == 0 then {} else TestNames(k - 1) + {TestName(k - 1)}
  }

  lemma {:induction false} TestNameFresh(k: nat, i: nat)
    requires k <= i
    ensures TestName(i) !in TestNames(k)
  {
    if k > 0 {
      TestNameFresh(k - 1, i);
      if TestName(k - 1) == TestName(i) {
        TestNameInjective(k - 1, i);
      }
    }
  }

  lemma RemoveThenPut(s: Timers, name: string, t: TimerState)
    requires name in s
    ensures (s - {name})[name := t] == s[name := t]
    ensures |s - {name}| == |s| - 1
  {
    assert (s - {name}).Keys == s.Keys - {name};
  }

  /** remove, then create under the same name: the create succeeds, since
      the removal freed both the name and a place under the capacity. */
  method RemoveThenCreate(m: StopwatchManager, name: string) returns (r: Result<TimerState>)
    requires m.Valid() && name != "" && name in m.instances
    modifies m
    ensures m.Valid() && r == Ok(Initial(DEFAULT_PRECISION))
    ensures m.instances == old(m.instances)[name := Initial(DEFAULT_PRECISION)]
  {
    RemoveThenPut(m.instances, name, Initial(DEFAULT_PRECISION));
    var removed := m.Remove(name);
    r := m.Create(name);
  }

  /** The registry after the first k bulk creates. */
  ghost function Registered(k: nat): Timers {
    if k == 0 then map[] else Registered(k - 1)[TestName(k - 1) := Initial(DEFAULT_PRECISION)]
  }

  lemma {:induction false} RegisteredShape(k: nat)
    ensures Registered(k).Keys == TestNames(k) && |Registered(k)| == k
    ensures forall n :: n in Registered(k) ==> Registered(k)[n] == Initial(DEFAULT_PRECISION)
  {
    RegisteredKeys(k);
    RegisteredInitial(k);
  }

  lemma PutFresh(m: Timers, n: string, t: TimerState)
    requires n !in m
    ensures m[n := t].Keys == m.Keys + {n} && |m[n := t]| == |m| + 1
  {
  }

  lemma {:induction false} RegisteredKeys(k: nat)
    ensures Registered(k).Keys == TestNames(k) && |Registered(k)| == k
  {
    if k > 0 {
      var prev, n := Registered(k - 1), TestName(k - 1);
      RegisteredKeys(k - 1);
      TestNameFresh(k - 1, k - 1);
      PutFresh(prev, n, Initial(DEFAULT_PRECISION));
    }
  }

  lemma {:induction false} RegisteredInitial(k: nat)
    ensures forall n :: n in Registered(k) ==> Registered(k)[n] == Initial(DEFAULT_PRECISION)
  {
    if k > 0 {
      RegisteredInitial(k - 1);
    }
  }

  /** The bulk registration of the test: 100 creates under distinct names,
      into a registry that starts empty and admits 100. */
  method CreateHundred(m: StopwatchManager)
    requires m.Valid() && m.maxCount == 100 && m.instances == map[]
    modifies m
    ensures m.Valid() && m.GetCount() == 100
    ensures forall n :: n in m.instances ==> m.instances[n] == Initial(DEFAULT_PRECISION)
  {
    var k := 0;
    while k < 100
      invariant 0 <= k <= 100
      invariant m.Valid() && m.instances == Registered(k)
    {
      RegisteredShape(k);
      TestNameFresh(k, k);
      var created := m.Create(TestName(k));
      k := k + 1;
    }
    RegisteredShape(100);
  }

  /** starts over registered timers that are all Stopped starts every one
      of them and counts each once. */
  lemma StartsAllStopped(s: Timers, order: seq<string>, now: real)
    requires AllWellFormed(s) && (forall n :: n in order <==> n in s)
    requires forall n :: n in s ==> s[n].status == Stopped
    ensures var b := RunBatch(StartAll, s, order, now, 0);
            && Report(b) == Ok(|s|)
            && b.timers.Keys == s.Keys
            && forall n :: n in b.timers ==> b.timers[n].status == Started
  {
    StartsStartsStopped(s, order, now);
    assert (set n | n in order && n in s && s[n].status == Stopped) == s.Keys;
    assert |s.Keys| == |s|;
  }

  /** stops as written over registered timers that are all Started fails
      on the first one with StatusError and changes nothing. */
  lemma AsWrittenFailsOnStarted(s: Timers, order: seq<string>, now: real)
    requires AllWellFormed(s) && 0 < |order| && (forall n :: n in order ==> n in s)
    requires forall n :: n in s ==> s[n].status == Started
    ensures var b := RunBatch(StopAllAsWritten, s, order, now, 0);
            Report(b) == Err(StatusError) && b.timers == s
  {
    AsWrittenStopsNothing(s, order, now, 0);
    assert order[0] in s;
  }

  /** After the bulk registration: starts over every name starts all 100,
      get_watchs reads them, and stops as written then fails with
      StatusError on the first of them. */
  method BatchRun(m: StopwatchManager, t1: real, t2: real, t3: real)
    returns (started: Result<nat>, stopped: Result<nat>)
    requires m.Valid() && |m.instances| == 100
    requires forall n :: n in m.instances ==> m.instances[n] == Initial(DEFAULT_PRECISION)
    modifies m
    ensures m.Valid()
    ensures started == Ok(100) && stopped == Err(StatusError)
  {
    StartsAllStopped(m.instances, m.order, t1);
    started := m.Starts([], t1);
    var w := m.GetWatchs([], 0, t2);
    OrderCountsNames(m.order, m.instances, m.maxCount);
    AsWrittenFailsOnStarted(m.instances, m.order, t3);
    stopped := m.Stops([], t3);
  }

  /** The test's calls on the registry, up to the one that raises: create,
      remove, create_and_start, remove, add, has, remove, 100 creates, then
      starts, get_watchs and stops. The start and stop through get
      (tests/manager.py:54-55) are not replayed: get returns a copy of the
      state here. The test expects every step to succeed; stops raises
      StatusError, which ends the test before resets and clear. */
  method ManagerTestRun(t0: real, t1: real, t2: real, t3: real)
    returns (count: nat, started: Result<nat>, stopped: Result<nat>)
    ensures count == 100 && started == Ok(100) && stopped == Err(StatusError)
  {
    var m := new StopwatchManager(100);
    var created := m.Create("tests::test1");
    var removed := m.Remove("tests::test1");
    var running := m.CreateAndStart("tests::test1", t0);
    assert running.Ok? && running.value.status == Started;
    removed := m.Remove("tests::test1");
    var w := new Stopwatch(DEFAULT_PRECISION);
    var added := m.Add("tests::test1", w);
    var has := m.Has("tests::test1");
    assert has == Ok(true);
    removed := m.Remove("tests::test1");
    assert m.instances.Keys == {};
    assert m.instances == map[];
    CreateHundred(m);
    count := m.GetCount();
    started, stopped := BatchRun(m, t1, t2, t3);
  }
}
