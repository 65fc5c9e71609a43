/** Properties of the stopwatch state machine that relate several
    operations: accumulation over pause/resume, the live read agreeing with
    stop, what reset forgets, the numbering and the collisions of automatic
    lap names, and the scenarios the library's own tests exercise. */
module WatchProperties {
  import opened Errors
  import opened Numerals
  import opened Watch

  /** start; stop; start; stop accumulates both intervals, not just the second. */
  lemma PauseResumeAccumulates(p: int, a1: real, b1: real, a2: real, b2: real)
    requires ValidDefaultPrecision(p)
    ensures var t1 := StartStep(Initial(p), a1).value;
            var t2 := StopStep(t1, b1).value;
            var t3 := StartStep(t2, a2).value;
            var t4 := StopStep(t3, b2).value;
            t4.status == Stopped && t4.total == (b1 - a1) + (b2 - a2)
  {
  }

  /** A live read while Started gives what stop at the same instant reports,
      and the stopped watch keeps reporting it at any later instant. */
  lemma LiveReadAgreesWithStop(t: TimerState, p: int, now: real, later: real)
    requires t.WellFormed() && t.status == Started
    ensures WatchValue(t, p, now) == WatchValue(StopStep(t, now).value, p, later)
  {
  }

  /** After a reset no lap is known, the average is 0 and the elapsed time is 0. */
  lemma ResetForgetsEverything(t: TimerState, name: string, p: int, now: real)
    requires t.WellFormed() && t.status == Stopped
    requires name != "" && EffectivePrecision(p, t.precision).Ok?
    ensures var u := ResetStep(t).value;
            && name !in u.laps
            && LapValue(u, name, p) == Err(LapNameError)
            && AverageValue(u, p) == Ok(0.0)
            && WatchValue(u, p, now) == Ok(Round(0.0, EffectivePrecision(p, t.precision).value))
  {
  }

  /** The names "lap_1", ..., "lap_k". */
  function AutoNames(k: nat): (s: seq<string>)
    ensures |s| == k
  {
    seq(k, i requires 0 <= i < k => "lap_" + NatToString(i + 1))
  }

  /** Different numbers give different automatic lap names. */
  lemma AutoNameInjective(a: nat, b: nat)
    requires "lap_" + NatToString(a) == "lap_" + NatToString(b)
    ensures a == b
  {
    assert ("lap_" + NatToString(a))[4..] == NatToString(a);
    assert ("lap_" + NatToString(b))[4..] == NatToString(b);
    NatToStringInjective(a, b);
  }

  /** Automatic laps are named lap_1, lap_2, ... in call order: on a table
      holding only automatic names, the next automatic lap adds a new key. */
  lemma AutoLapsNumbered(t: TimerState, now: real)
    requires t.WellFormed() && t.status == Started
    requires t.lapNames == AutoNames(|t.lapNames|)
    ensures LapStep(t, "", now).Ok?
    ensures LapStep(t, "", now).value.lapNames == AutoNames(|t.lapNames| + 1)
  {
    var k := |t.lapNames|;
    var key := "lap_" + NatToString(k + 1);
    forall i | 0 <= i < k
      ensures t.lapNames[i] != key
    {
      if t.lapNames[i] == key {
        AutoNameInjective(i + 1, k + 1);
      }
    }
    assert key !in t.laps;
    assert t.lapNames + [key] == AutoNames(k + 1);
  }

  /** An automatic lap whose generated name was already used explicitly
      overwrites that lap: start, lap("lap_2"), lap() leaves one lap,
      "lap_2", holding the second interval; the first is lost and "lap_1"
      does not exist. */
  lemma AutoLapOverwritesExplicitLap(p: int, s0: real, a: real, b: real)
    requires ValidDefaultPrecision(p) && a != 0.0
    ensures var t1 := StartStep(Initial(p), s0).value;
            var t2 := LapStep(t1, "lap_2", a).value;
            var t3 := LapStep(t2, "", b).value;
            && t2.LapCount() == 1
            && t3.LapCount() == 1
            && t3.laps == map["lap_2" := b - a]
            && LapValue(t3, "lap_" + IntToString(1), p) == Err(LapNameError)
  {
    var t1 := StartStep(Initial(p), s0).value;
    var t2 := LapStep(t1, "lap_2", a).value;
    assert NatToString(2) == "2";
    assert LapKey(t2, "") == "lap_2";
    assert IntToString(1) == "1";
    assert ("lap_" + IntToString(1))[4] == '1' != "lap_2"[4];
  }

  /** A lap after a pause and resume is measured from the previous lap
      instant, not from the resume instant: the last instant survives
      stop and start. */
  lemma LapAfterResumeMeasuresFromLastLap(t: TimerState, stopAt: real, resumeAt: real, lapAt: real)
    requires t.WellFormed() && t.status == Started
    requires t.last.Some? && t.last.value != 0.0
    ensures var t1 := StopStep(t, stopAt).value;
            var t2 := StartStep(t1, resumeAt).value;
            var t3 := LapStep(t2, "", lapAt).value;
            && t2.start == Some(resumeAt)
            && t3.laps[LapKey(t2, "")] == lapAt - t.last.value
  {
  }

  /** The scenario of tests/watch.py: two named laps and one automatic lap
      give three laps, and the named ones are present. */
  lemma ThreeLapsScenario(s0: real, a: real, b: real, c: real)
    ensures var t1 := StartStep(Initial(DEFAULT_PRECISION), s0).value;
            var t2 := LapStep(t1, "tests::test1", a).value;
            var t3 := LapStep(t2, "tests::test2", b).value;
            var t4 := LapStep(t3, "", c).value;
            && t4.LapCount() == 3
            && "tests::test1" in t4.laps
            && t4.lapNames == ["tests::test1", "tests::test2", "lap_3"]
  {
    var t1 := StartStep(Initial(DEFAULT_PRECISION), s0).value;
    var t2 := LapStep(t1, "tests::test1", a).value;
    var t3 := LapStep(t2, "tests::test2", b).value;
    assert NatToString(3) == "3";
    assert LapKey(t3, "") == "lap_3";
  }

  /** Round(x, 3) of a value with at most three decimals is the value itself. */
  lemma RoundExactThousandths(n: int)
    ensures Round(n as real / 1000.0, 3) == n as real / 1000.0
  {
    assert Pow10(3) == 1000.0 by {
      assert Pow10(1) == 10.0;
      assert Pow10(2) == 100.0;
    }
    var k := RoundedUnits(n as real / 1000.0, 3);
    assert (n as real / 1000.0) * 1000.0 == n as real;
    assert k == n;
  }

  /** The end-to-end scenario: start, lap "a" after 0.3 s, lap "b" after a
      further 0.1 s, stop. */
  function EndToEndRun(s0: real): TimerState {
    var t1 := StartStep(Initial(DEFAULT_PRECISION), s0).value;
    var t2 := LapStep(t1, "a", s0 + 0.3).value;
    var t3 := LapStep(t2, "b", s0 + 0.4).value;
    StopStep(t3, s0 + 0.4).value
  }

  lemma EndToEndState(s0: real)
    requires s0 + 0.3 != 0.0
    ensures EndToEndRun(s0) == TimerState(DEFAULT_PRECISION, Stopped, Some(s0), Some(s0 + 0.4), 0.4,
                                          ["a", "b"], map["a" := 0.3, "b" := 0.1])
  {
    var t1 := StartStep(Initial(DEFAULT_PRECISION), s0).value;
    assert t1 == TimerState(DEFAULT_PRECISION, Started, Some(s0), None, 0.0, [], map[]);
    var t2 := LapStep(t1, "a", s0 + 0.3).value;
    assert LapKey(t1, "a") == "a" && LapReference(t1) == s0;
    assert t2 == TimerState(DEFAULT_PRECISION, Started, Some(s0), Some(s0 + 0.3), 0.0, ["a"], map["a" := 0.3]);
    var t3 := LapStep(t2, "b", s0 + 0.4).value;
    assert LapKey(t2, "b") == "b" && LapReference(t2) == s0 + 0.3;
    assert t3 == TimerState(DEFAULT_PRECISION, Started, Some(s0), Some(s0 + 0.4), 0.0, ["a", "b"],
                            map["a" := 0.3, "b" := 0.1]);
  }

  /** In the end-to-end scenario stop reports 0.4, the laps are 0.3 and 0.1
      and their average is 0.2 (precision 3). */
  lemma EndToEndReports(s0: real)
    requires s0 + 0.3 != 0.0
    ensures WatchValue(EndToEndRun(s0), 0, s0 + 0.4) == Ok(0.4)
    ensures LapValue(EndToEndRun(s0), "a", 0) == Ok(0.3)
    ensures LapValue(EndToEndRun(s0), "b", 0) == Ok(0.1)
    ensures AverageValue(EndToEndRun(s0), 0) == Ok(0.2)
  {
    EndToEndState(s0);
    var t := EndToEndRun(s0);
    RoundExactThousandths(400);
    RoundExactThousandths(300);
    RoundExactThousandths(100);
    RoundExactThousandths(200);
    assert SumLaps(t.lapNames, t.laps) == 0.4 by {
      assert t.lapNames[..1] == ["a"];
      assert t.lapNames[..1][..0] == [];
    }
  }
}
