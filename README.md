# stopwatch, modelled in Dafny

This project models the core of the `stopwatch` Python library:

- `Stopwatch` (stopwatch/watch.py): a two-state timer, Stopped or Started. It accumulates a total across stop/start cycles. It keeps a start instant and a "last lap" instant. It has an insertion-ordered lap dictionary whose automatic names are `lap_<count+1>`.
- `StopwatchManager` (stopwatch/manager.py): a registry of stopwatches under unique names, with an optional capacity. It has lookup, add, create, remove and clear. Its batch operations `starts`, `stops`, `resets` and `get_watchs` walk a list of names, or every registered name in insertion order. They stop at the first unknown name, and the effects on the names already visited remain.
- The exception classes of stopwatch/errors.py, as the datatype `Errors.Error`. Operations return `Result`/`Outcome` values instead of raising.

Files:

- `errors.dfy`: the error kinds, `Option`, `Result` and `Outcome`.
- `numerals.dfy`: `str()` of an integer (used for lap names) and `round(x, p)` on exact reals.
- `watch.dfy`: the timer state as a datatype, with one specification function per operation. It also has the class `Stopwatch`, whose fields are the private fields of the Python class. Each of its methods is proved against the matching function.
- `watch_properties.dfy`: properties of the timer that relate several operations.
- `manager.dfy`: the batch specification (`RunBatch`, `WatchTotal`) and the registry invariant. It has the class `StopwatchManager`, whose methods are proved against them, and the loops of the batch methods.
- `manager_properties.dfy`: what each batch does to the registry, as a whole.
- `manager_scenarios.dfy`: the library's own manager test, replayed on the model up to the `stops` call that raises, with its outcomes proved.

The clock is a parameter. Every operation that reads `time.perf_counter()` takes the reading `now: real`. The monotonic clock is the precondition `ClockNotBefore(now)`: no instant a timer recorded is later than `now`. Durations are exact reals.

Where the prose documentation and the code disagree, the model follows the code:

- The default precision must be non-zero and at most 8. A negative precision is accepted (stopwatch/watch.py:80-84). The docstrings (stopwatch/watch.py:72-74, 256-259, 387-390) bound the precision only from above, by `MAX_STOPWATCH_PRECISION`; the code refuses 0 as well.
- `lap` checks for a duplicate explicit name before it checks the status (stopwatch/watch.py:178-186), so a duplicate name gives `LapNameError` even while Stopped.
- A capacity of 0 (or `None`) means no limit. A negative capacity is truthy and never above the count, so it admits nothing (stopwatch/manager.py:126-128).
- `stops` calls `start()` on Started timers (stopwatch/manager.py:333). See "## Findings".

Python's falsy values are encoded as follows. An absent or empty lap name is `""`. An absent or zero precision is `0`. An absent or zero capacity is `0`.

## Model

| member | source | states |
|---|---|---|
| Numerals.NatToString | stopwatch/watch.py:191-192 | the decimal rendering of a count is a non-empty string of digits |
| Numerals.NatToStringInjective | stopwatch/watch.py:191-192 | different counts render differently, so the automatic lap names lap_1, lap_2, ... are pairwise distinct |
| Numerals.IntToStringInjective | stopwatch/watch.py:309 | str(n) renders different integers differently (a leading '-' only for negatives), so get_lap_by_number looks up a different key for every n |
| Numerals.RoundedUnits | stopwatch/watch.py:280 | the number of units of 10^-p nearest to x, with ties going to the even number |
| Numerals.Round | stopwatch/watch.py:280 | round(x, p) is a whole number of units of 10^-p, at most half a unit away from x, and the even one on a tie |
| Numerals.RoundNonNegative | stopwatch/watch.py:411 | rounding a non-negative duration never gives a negative value |
| Watch.Initial | stopwatch/watch.py:86-93 | a fresh timer is Stopped, with no instants, a zero total and no laps; it is well formed and non-negative for any accepted precision |
| Watch.StartStep | stopwatch/watch.py:120-124 | start succeeds exactly when Stopped; it records now as the start instant and moves to Started, changing nothing else; when Started it gives StatusError |
| Watch.StopStep | stopwatch/watch.py:141-147 | stop succeeds exactly when Started; it adds now - start to the total and moves to Stopped, changing nothing else; when Stopped it gives StatusError |
| Watch.LapStep | stopwatch/watch.py:176-194 | a duplicate explicit name gives LapNameError even while Stopped; otherwise a timer that is not Started gives StatusError; on success it stores now - reference under the name or lap_<count+1> (a new key is appended to the order, an existing one is overwritten) and sets the last instant to now |
| Watch.ResetStep | stopwatch/watch.py:210-216 | reset succeeds exactly when Stopped and yields the initial state with the same precision; when Started it gives StatusError |
| Watch.EffectivePrecision | stopwatch/watch.py:400-405 | precision 0 falls back to the default; one above 8 gives ValueError; any other is used as given |
| Watch.Elapsed | stopwatch/watch.py:407-411 | when Started, the total that stop would record at now; under a monotonic clock never below the total |
| Watch.WatchValue | stopwatch/watch.py:400-411 | get_watch fails, with ValueError, exactly when the precision is refused; it is never negative under a monotonic clock |
| Watch.LapValue | stopwatch/watch.py:269-282 | get_lap checks in order: an empty name (ValueError), then the precision (ValueError), then an unknown name (LapNameError); otherwise it gives the rounded stored duration |
| Watch.SumLaps | stopwatch/watch.py:344-347 | the sum of the lap durations is non-negative when every lap is |
| Watch.AverageValue | stopwatch/watch.py:334-349 | get_average_of_laps fails exactly when the precision is refused; it is 0 with no laps and never negative |
| Watch.Stopwatch.constructor | stopwatch/watch.py:80-93 | the fields hold the initial state for an accepted precision |
| Watch.Stopwatch.New | stopwatch/watch.py:80-84 | the constructor refuses a zero precision or one above 8 with ValueError, and otherwise builds a valid fresh timer |
| Watch.Stopwatch.Start | stopwatch/watch.py:120-124 | the fields change exactly as StartStep says, or stay unchanged with the error |
| Watch.Stopwatch.Stop | stopwatch/watch.py:141-149 | the fields change as StopStep says, and the result is get_watch with no precision on the new state |
| Watch.Stopwatch.Lap | stopwatch/watch.py:176-195 | the fields change as LapStep says and the result is now, or they stay unchanged with the error |
| Watch.Stopwatch.Reset | stopwatch/watch.py:210-216 | the fields change as ResetStep says, or stay unchanged with StatusError |
| Watch.Stopwatch.HasLap | stopwatch/watch.py:238-241 | an empty name gives ValueError; otherwise the result is membership in the lap table |
| Watch.Stopwatch.GetLap | stopwatch/watch.py:269-282 | the result is LapValue of the current state |
| Watch.Stopwatch.GetLapByNumber | stopwatch/watch.py:309 | the result is get_lap of "lap_" + str(n) |
| Watch.Stopwatch.GetAverageOfLaps | stopwatch/watch.py:334-349 | the loop over the laps computes AverageValue of the current state |
| Watch.Stopwatch.GetLaps | stopwatch/watch.py:362 | the list holds exactly the lap keys, each once |
| Watch.Stopwatch.GetLapCount | stopwatch/watch.py:375 | the number of entries in the lap table |
| Watch.Stopwatch.GetWatch | stopwatch/watch.py:400-411 | the result is WatchValue of the current state |
| WatchProperties.PauseResumeAccumulates | stopwatch/watch.py:141-147 | start, stop, start, stop accumulates both running intervals |
| WatchProperties.LiveReadAgreesWithStop | stopwatch/watch.py:407-411 | a live read while Started equals what stop at the same instant leaves, read at any later time |
| WatchProperties.ResetForgetsEverything | stopwatch/watch.py:210-216 | after reset no lap name is known, the average is 0 and the elapsed time is 0 |
| WatchProperties.AutoNames | stopwatch/watch.py:191-192 | the automatic names lap_1 .. lap_k |
| WatchProperties.AutoNameInjective | stopwatch/watch.py:191-192 | two automatic names are equal only for equal numbers |
| WatchProperties.AutoLapsNumbered | stopwatch/watch.py:188-194 | on a table of automatic laps only, the next automatic lap is appended under lap_<k+1> |
| WatchProperties.AutoLapOverwritesExplicitLap | stopwatch/watch.py:191-192 | an automatic lap whose generated name was used explicitly overwrites it, and the lap count does not grow |
| WatchProperties.LapAfterResumeMeasuresFromLastLap | stopwatch/watch.py:123 | start leaves the last instant alone, so a lap after a pause and resume is measured from the previous lap instant, pause included |
| WatchProperties.ThreeLapsScenario | tests/watch.py:45-75 | two named laps and one automatic lap give a count of 3, the first name is present, and the automatic one is lap_3 |
| WatchProperties.RoundExactThousandths | stopwatch/watch.py:411 | rounding to 3 places leaves a value with at most three decimals unchanged |
| WatchProperties.EndToEndState | stopwatch/watch.py:120-147 | start, lap "a" after 0.3 s, lap "b" 0.1 s later, stop: the exact final state |
| WatchProperties.EndToEndReports | stopwatch/watch.py:269-349 | in that run stop reports 0.4, the laps read 0.3 and 0.1, and the average is 0.2 |
| Manager.SelectedEveryRegistered | stopwatch/manager.py:291 | with no names given, a batch visits every registered name exactly once, so it never meets an unknown name |
| Manager.VisitTimer | stopwatch/manager.py:292-294 | one visit of starts, stops or resets keeps the timer well formed and its precision; a visit that raises changes and counts nothing; a successful visit keeps durations non-negative |
| Manager.VisitSettles | stopwatch/manager.py:364-367 | a second visit neither changes nor counts the timer: starting, stopping and resetting are idempotent |
| Manager.RunBatch | stopwatch/manager.py:290-296 | a batch keeps the registered names and the well-formedness of every timer, and counts at most one per name visited |
| Manager.WatchTotal | stopwatch/manager.py:405-417 | get_watchs succeeds exactly when every name is registered and the precision is accepted (or no name is visited); otherwise an unknown name gives StopwatchNameError (at once when it comes first; always when the precision is accepted) and a refused precision gives ValueError; the sum is never below its start |
| Manager.AddCheck | stopwatch/manager.py:117-128 | add checks in order: empty name (ValueError), taken name (StopwatchNameError), then capacity (MaxLimitError); a successful add keeps the count within the capacity |
| Manager.Without | stopwatch/manager.py:209 | removing a name keeps exactly the other names, each once |
| Manager.WithoutKeepsOrder | stopwatch/manager.py:209 | removing the name at position k of the insertion order leaves the names before and after it in their order, as `del` does to a dict |
| Manager.WithoutAbsent | stopwatch/manager.py:209 | removing a name that is not listed leaves the order unchanged |
| Manager.OrderCountsNames | stopwatch/manager.py:258 | the number of registered timers equals the length of the insertion order |
| Manager.StartTimers | stopwatch/manager.py:290-296 | the loop of starts computes RunBatch for StartAll |
| Manager.StopTimersAsWritten | stopwatch/manager.py:330-336 | the loop of stops, as written, computes RunBatch for StopAllAsWritten |
| Manager.StopTimers | stopwatch/manager.py:330-336 | the loop of stops with stop() in place of start() computes RunBatch for StopAll |
| Manager.ResetTimers | stopwatch/manager.py:362-369 | the loop of resets computes RunBatch for ResetAll |
| Manager.SumWatches | stopwatch/manager.py:405-410 | the loop of get_watchs computes WatchTotal |
| Manager.StopwatchManager.constructor | stopwatch/manager.py:62-66 | a new registry is empty and keeps the given capacity |
| Manager.StopwatchManager.GetCount | stopwatch/manager.py:258 | the count is the number of names in insertion order, and never above a positive capacity |
| Manager.StopwatchManager.Get | stopwatch/manager.py:88-94 | an empty name gives ValueError, an unknown name StopwatchNameError, a registered name its timer |
| Manager.StopwatchManager.Has | stopwatch/manager.py:242-245 | an empty name gives ValueError; otherwise the result is membership |
| Manager.StopwatchManager.Add | stopwatch/manager.py:117-130 | the outcome is AddCheck; on success exactly the new name is added, at the end of the order; on failure nothing changes |
| Manager.StopwatchManager.Create | stopwatch/manager.py:154-161 | a fresh timer with the default precision is added under the name, with the same checks as add |
| Manager.StopwatchManager.CreateAndStart | stopwatch/manager.py:185-186 | with the checks of add passed, the registered timer is the fresh one, started at now, and it is what is returned |
| Manager.StopwatchManager.Remove | stopwatch/manager.py:205-211 | an empty name gives ValueError and an unknown one StopwatchNameError; otherwise exactly that name is removed |
| Manager.StopwatchManager.Clear | stopwatch/manager.py:221 | the registry is empty and the count is 0 |
| Manager.StopwatchManager.Starts | stopwatch/manager.py:285-298 | the registry and the result are those of RunBatch for StartAll over the selected names |
| Manager.StopwatchManager.Stops | stopwatch/manager.py:325-338 | the registry and the result are those of RunBatch for StopAllAsWritten over the selected names |
| Manager.StopwatchManager.StopsIntended | stopwatch/manager.py:325-338 | the registry and the result are those of RunBatch for StopAll, with stop() at line 333 |
| Manager.StopwatchManager.Resets | stopwatch/manager.py:359-369 | the registry is that of RunBatch for ResetAll, and the outcome is its error, if any |
| Manager.StopwatchManager.GetWatchs | stopwatch/manager.py:401-417 | the result is WatchTotal over the selected names |
| ManagerProperties.BatchFrame | stopwatch/manager.py:291-296 | a timer the batch does not visit keeps its state |
| ManagerProperties.BatchComplete | stopwatch/manager.py:291-296 | a batch that ran to the end leaves each selected timer as one visit leaves it, even a timer named twice, and every other timer as it was |
| ManagerProperties.BatchCount | stopwatch/manager.py:292-294 | a batch that ran to the end counts each distinct timer whose visit counts, once |
| ManagerProperties.BatchErrors | stopwatch/manager.py:295-296 | starts, the corrected stops and resets fail exactly when a selected name is unknown, and then with StopwatchNameError |
| ManagerProperties.BatchCompose | stopwatch/manager.py:291-296 | a batch over a + b is the batch over a, then over b from where a left off, unless a failed: the visits before a failing name keep their effects |
| ManagerProperties.BatchKeepsReady | stopwatch/manager.py:291-296 | a batch keeps every duration non-negative and every instant no later than the clock |
| ManagerProperties.StartsStartsStopped | stopwatch/manager.py:288-298 | with every name registered, starts starts exactly the selected Stopped timers and returns how many there were; otherwise it fails |
| ManagerProperties.AsWrittenStopsNothing | stopwatch/manager.py:328-338 | stops as written never changes or counts a timer; it succeeds exactly when every selected name is registered and Stopped; with every name registered its error is StatusError |
| ManagerProperties.StopsStopsStarted | stopwatch/manager.py:328-338 | the corrected stops stops exactly the selected Started timers and returns how many there were |
| ManagerProperties.ResetsResetSelected | stopwatch/manager.py:362-369 | with every name registered, resets returns each selected timer to its initial state, whatever its status was, and leaves the others alone |
| ManagerProperties.StopsFindingWitness | stopwatch/manager.py:332-334 | on one Started timer, stops as written fails with StatusError and stops nothing, while the corrected stops stops it and counts 1 |
| ManagerProperties.StoppedTotalIgnoresClock | stopwatch/manager.py:407-408 | over Stopped timers, get_watchs gives the same answer at any clock reading |
| ManagerProperties.InitialTotal | stopwatch/manager.py:407-408 | timers in their initial state add nothing to get_watchs |
| ManagerProperties.ResetThenWatchsZero | stopwatch/manager.py:362-417 | after a resets that ran to the end, get_watchs over the same names reads 0 |
| ManagerScenarios.TestNameInjective | tests/manager.py:65-66 | the bulk names "tests::test" + str(k) are pairwise distinct |
| ManagerScenarios.TestNameFresh | tests/manager.py:65-66 | the k-th bulk name is not among the earlier ones |
| ManagerScenarios.RemoveThenCreate | tests/manager.py:46-48 | remove followed by create under the same name succeeds and registers a fresh timer |
| ManagerScenarios.CreateHundred | tests/manager.py:65-69 | 100 creates into an empty registry of capacity 100 all succeed, and get_count is 100 |
| ManagerScenarios.StartsAllStopped | stopwatch/manager.py:291-294 | starts over registered timers that are all Stopped starts every one and counts them all |
| ManagerScenarios.AsWrittenFailsOnStarted | stopwatch/manager.py:331-334 | stops as written over Started timers fails with StatusError and changes nothing |
| ManagerScenarios.BatchRun | tests/manager.py:71-73 | after the bulk creates, starts returns 100, get_watchs reads them, and stops fails with StatusError |
| ManagerScenarios.ManagerTestRun | tests/manager.py:36-73 | the manager test up to the call that raises, without its two calls through get (lines 54-55): the count is 100, starts returns 100, and stops raises StatusError, which ends the test before resets and clear (lines 74-76) |

## Left out

- Clock: `time.perf_counter()` is the parameter `now`. A batch reads one `now` for all its timers, where the library reads the clock once per timer.
- Floating point: durations are exact reals and `round` is exact round-half-even on reals. Binary float representation and its rounding artefacts are not modelled.
- `isinstance` checks: static types replace them. Only the empty-name check and the precision above the maximum remain.
- Exception messages, including the name added by the re-raise in `get_watchs` (stopwatch/manager.py:411-415), are not modelled. Only the error kind is.
- The `StatusError` branch of `get_watch` (stopwatch/watch.py:412-413) cannot be reached, because the status has only two values. The re-raise of `StatusError` in `get_watchs` cannot be reached either.
- `get_status` (stopwatch/watch.py:107) has no member of its own: it returns the `status` field, which `State()` exposes, and promises nothing further.
- ManagerScenarios.ManagerTestRun: leaves out tests/manager.py:54-55 (`get(...).start()` and `get(...).stop()`). In this value model `get` returns a copy of the state, so those calls would not reach the registry (see the aliasing line below).
- Aliasing in the registry: the registry maps each name to the state of its timer (`map<string, TimerState>`), not to a shared object. `add` stores the state of the given stopwatch, and `get`, `create` and `create_and_start` return the registered state as a value. So a caller that keeps the object and later calls `start()` on it does not change the registry in this model, and one object registered under two names becomes two independent timers.
- The lap dictionary is the pair of the key order and a map; Python dictionary internals are not modelled.
- stopwatch/__init__.py (re-exports and the default manager), stopwatch/version.py, setup.py and quickstart.py are not part of this model. The sleeps and timing tolerances of tests/watch.py:56-64 are not modelled.

## Findings

| source | as written | input that shows it | evidently intended | confidence | as-written member | corrected member |
|---|---|---|---|---|---|---|
| stopwatch/manager.py:333 | `stops` calls `start()` on every selected timer that is Started, which raises StatusError | the library's own test, tests/manager.py:71-73: after `starts()` every timer is Started, so `stops()` raises StatusError on the first of them and stops nothing (`ManagerScenarios.BatchRun`); a single Started timer shows the same (`ManagerProperties.StopsFindingWitness`) | call `stop()` and return the number of timers actually stopped, as the documentation at stopwatch/manager.py:317-318 says | high; not executed | Manager.StopwatchManager.Stops, ManagerProperties.AsWrittenStopsNothing | Manager.StopwatchManager.StopsIntended, ManagerProperties.StopsStopsStarted |
