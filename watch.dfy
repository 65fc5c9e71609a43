/** A single stopwatch: a two-state machine (Stopped, Started) with an
    accumulated total that survives stop/start cycles, a start instant, a
    "last lap" instant and an insertion-ordered table of named laps.

    The clock is not read here: every operation that reads it takes the
    reading as a parameter `now`, and the clock is assumed monotonic, which is
    stated as `ClockNotBefore(now)` (no instant the timer recorded is later
    than `now`). Durations are exact reals. */
module Watch {
  import opened Errors
  import opened Numerals

  const MAX_STOPWATCH_PRECISION: int := 8
  const DEFAULT_PRECISION: int := 3

  datatype Status = Stopped | Started

  /** A default precision the constructor accepts: non-zero (zero is falsy)
      and at most the maximum. Negative values are accepted. */
  predicate ValidDefaultPrecision(p: int) {
    p != 0 && p <= MAX_STOPWATCH_PRECISION
  }

  predicate Distinct(s: seq<string>) {
    forall i, j :: 0 <= i < j < |s| ==> s[i] != s[j]
  }

  /** The observable state of one stopwatch. The lap dictionary, which keeps
      insertion order, is the pair (lapNames, laps). */
  datatype TimerState = TimerState(
    precision: int,
    status: Status,
    start: Option<real>,
    last: Option<real>,
    total: real,
    lapNames: seq<string>,
    laps: map<string, real>)
  {
    predicate WellFormed() {
      && ValidDefaultPrecision(precision)
      && laps.Keys == (set k | k in lapNames)
      && |laps| == |lapNames|
      && (status == Started ==> start.Some?)
    }

    /** Durations are never negative (given a monotonic clock). */
    predicate NonNegative() {
      total >= 0.0 && forall k :: k in laps ==> laps[k] >= 0.0
    }

    /** The clock reading `now` is no earlier than any instant recorded. */
    predicate ClockNotBefore(now: real) {
      (start.Some? ==> start.value <= now) && (last.Some? ==> last.value <= now)
    }

    function LapCount(): nat {
      |lapNames|
    }
  }

  /** The state of a freshly constructed stopwatch. */
  function Initial(p: int): (t: TimerState)
    ensures ValidDefaultPrecision(p) ==> t.WellFormed() && t.NonNegative()
    ensures forall now :: t.ClockNotBefore(now)
  {
    TimerState(p, Stopped, None, None, 0.0, [], map[])
  }

  // ---------------------------------------------------------------------
  // State transitions (the specification of the Stopwatch methods)
  // ---------------------------------------------------------------------

  /** start: only from Stopped; records `now` as the start instant. */
  function StartStep(t: TimerState, now: real): (r: Result<TimerState>)
    ensures r.Ok? <==> t.status == Stopped
    ensures r.Err? ==> r.error == StatusError
    ensures r.Ok? ==> r.value == t.(status := Started, start := Some(now))
    ensures r.Ok? && t.WellFormed() ==> r.value.WellFormed()
    ensures r.Ok? && t.NonNegative() ==> r.value.NonNegative()
    ensures r.Ok? && t.ClockNotBefore(now) ==> r.value.ClockNotBefore(now)
  {
    if t.status != Stopped then Err(StatusError)
    else Ok(t.(start := Some(now), status := Started))
  }

  /** stop: only from Started; adds the running interval to the total. */
  function StopStep(t: TimerState, now: real): (r: Result<TimerState>)
    requires t.WellFormed()
    ensures r.Ok? <==> t.status == Started
    ensures r.Err? ==> r.error == StatusError
    ensures r.Ok? ==> r.value.status == Stopped && r.value.total == t.total + (now - t.start.value)
    ensures r.Ok? ==> r.value.(status := Started, total := t.total) == t
    ensures r.Ok? ==> r.value.WellFormed()
    ensures r.Ok? && t.NonNegative() && t.ClockNotBefore(now) ==>
              r.value.NonNegative() && r.value.ClockNotBefore(now)
  {
    if t.status != Started then Err(StatusError)
    else Ok(t.(total := t.total + (now - t.start.value), status := Stopped))
  }

  /** The key a lap is stored under: the explicit name, or "lap_<count+1>"
      when the name is absent (empty). The generated key is not checked
      against the existing keys. */
  function LapKey(t: TimerState, name: string): string {
    if name != "" then name else "lap_" + NatToString(|t.lapNames| + 1)
  }

  /** The instant a lap is measured from: the last lap instant, or the start
      instant when there is none (a last instant of 0.0 is falsy and counts
      as none). */
  function LapReference(t: TimerState): real
    requires t.start.Some?
  {
    if t.last.None? || t.last.value == 0.0 then t.start.value else t.last.value
  }

  /** lap: a duplicate explicit name is refused first (even while Stopped),
      then the status is checked; on success the interval since the
      reference instant is stored and `now` becomes the last instant. */
  function LapStep(t: TimerState, name: string, now: real): (r: Result<TimerState>)
    requires t.WellFormed()
    ensures name != "" && name in t.laps ==> r == Err(LapNameError)
    ensures r.Ok? <==> t.status == Started && (name == "" || name !in t.laps)
    ensures r.Err? && (name == "" || name !in t.laps) ==> r.error == StatusError
    ensures r.Ok? ==>
              var k := LapKey(t, name);
              && r.value.laps == t.laps[k := now - LapReference(t)]
              && r.value.lapNames == t.lapNames + (if k in t.laps then [] else [k])
              && r.value.last == Some(now)
              && r.value.(last := t.last, lapNames := t.lapNames, laps := t.laps) == t
    ensures r.Ok? ==> r.value.WellFormed()
    ensures r.Ok? && t.NonNegative() && t.ClockNotBefore(now) ==>
              r.value.NonNegative() && r.value.ClockNotBefore(now)
  {
    if name != "" && name in t.laps then Err(LapNameError)
    else if t.status != Started then Err(StatusError)
    else
      var k := LapKey(t, name);
      var names := if k in t.laps then t.lapNames else t.lapNames + [k];
      Ok(t.(lapNames := names, laps := t.laps[k := now - LapReference(t)], last := Some(now)))
  }

  /** reset: only from Stopped; returns the stopwatch to its initial state,
      keeping only its precision. */
  function ResetStep(t: TimerState): (r: Result<TimerState>)
    ensures r.Ok? <==> t.status == Stopped
    ensures r.Err? ==> r.error == StatusError
    ensures r.Ok? ==> r.value == Initial(t.precision)
  {
    if t.status != Stopped then Err(StatusError)
    else Ok(t.(lapNames := [], laps := map[], start := None, last := None, total := 0.0))
  }

  // ---------------------------------------------------------------------
  // Queries
  // ---------------------------------------------------------------------

  /** The precision a query uses: the default when none (0) is given;
      a precision above the maximum is refused, a negative one is not. */
  function EffectivePrecision(p: int, default: int): (r: Result<int>)
    ensures r.Ok? <==> p == 0 || p <= MAX_STOPWATCH_PRECISION
    ensures r.Err? ==> r.error == ValueError
    ensures r.Ok? && p != 0 ==> r.value == p
    ensures r.Ok? && ValidDefaultPrecision(default) ==> ValidDefaultPrecision(r.value)
  {
    if p == 0 then Ok(default)
    else if p > MAX_STOPWATCH_PRECISION then Err(ValueError)
    else Ok(p)
  }

  /** The elapsed time: the total when Stopped, the total plus the running
      interval when Started (a live read). */
  function Elapsed(t: TimerState, now: real): (e: real)
    requires t.WellFormed()
    ensures t.status == Started ==> e == StopStep(t, now).value.total
    ensures t.NonNegative() && t.ClockNotBefore(now) ==> e >= t.total >= 0.0
  {
    if t.status == Started then t.total + (now - t.start.value) else t.total
  }

  /** get_watch: the elapsed time rounded to the effective precision. */
  function WatchValue(t: TimerState, p: int, now: real): (r: Result<real>)
    requires t.WellFormed()
    ensures r.Err? <==> EffectivePrecision(p, t.precision).Err?
    ensures r.Err? ==> r.error == ValueError
    ensures r.Ok? && t.NonNegative() && t.ClockNotBefore(now) ==> r.value >= 0.0
  {
    match EffectivePrecision(p, t.precision)
    case Err(e) => Err(e)
    case Ok(q) =>
      RoundNonNegativeWhen(Elapsed(t, now), q);
      Ok(Round(Elapsed(t, now), q))
  }

  /** Round of a non-negative number is non-negative (a guarded form of
      RoundNonNegative for use inside expressions). */
  lemma RoundNonNegativeWhen(x: real, p: int)
    ensures x >= 0.0 ==> Round(x, p) >= 0.0
  {
    if x >= 0.0 { RoundNonNegative(x, p); }
  }

  /** get_lap: the empty name is refused, then the precision, then an
      unknown name. */
  function LapValue(t: TimerState, name: string, p: int): (r: Result<real>)
    ensures name == "" ==> r == Err(ValueError)
    ensures name != "" && EffectivePrecision(p, t.precision).Err? ==> r == Err(ValueError)
    ensures r.Ok? <==> name != "" && EffectivePrecision(p, t.precision).Ok? && name in t.laps
    ensures r.Err? && name != "" && EffectivePrecision(p, t.precision).Ok? ==> r.error == LapNameError
    ensures r.Ok? ==> r.value == Round(t.laps[name], EffectivePrecision(p, t.precision).value)
  {
    if name == "" then Err(ValueError)
    else match EffectivePrecision(p, t.precision)
      case Err(e) => Err(e)
      case Ok(q) => if name in t.laps then Ok(Round(t.laps[name], q)) else Err(LapNameError)
  }

  /** The sum of the durations of the named laps, in order. */
  function SumLaps(names: seq<string>, laps: map<string, real>): (s: real)
    requires forall i :: 0 <= i < |names| ==> names[i] in laps
    ensures (forall i :: 0 <= i < |names| ==> laps[names[i]] >= 0.0) ==> s >= 0.0
  {
    if names == [] then 0.0
    else SumLaps(names[..|names| - 1], laps) + laps[names[|names| - 1]]
  }

  /** get_average_of_laps: 0 with no laps, else the rounded mean. */
  function AverageValue(t: TimerState, p: int): (r: Result<real>)
    requires t.WellFormed()
    ensures r.Err? <==> EffectivePrecision(p, t.precision).Err?
    ensures r.Err? ==> r.error == ValueError
    ensures r.Ok? && t.LapCount() == 0 ==> r.value == 0.0
    ensures r.Ok? && t.NonNegative() ==> r.value >= 0.0
  {
    match EffectivePrecision(p, t.precision)
    case Err(e) => Err(e)
    case Ok(q) =>
      if |t.lapNames| == 0 then Ok(0.0)
      else
        var mean := SumLaps(t.lapNames, t.laps) / (|t.lapNames| as real);
        RoundNonNegativeWhen(mean, q);
        Ok(Round(mean, q))
  }

  // ---------------------------------------------------------------------
  // The Stopwatch object
  // ---------------------------------------------------------------------

  class Stopwatch {
    const precision: int
    var status: Status
    var startCount: Option<real>
    var lastCount: Option<real>
    var totalCount: real
    var lapNames: seq<string>     // the keys of the lap dictionary, in insertion order
    var laps: map<string, real>   // the lap dictionary

    function State(): TimerState
      reads this
    {
      TimerState(precision, status, startCount, lastCount, totalCount, lapNames, laps)
    }

    predicate Valid()
      reads this
    {
      State().WellFormed() && State().NonNegative()
    }

    constructor (defaultPrecision: int)
      requires ValidDefaultPrecision(defaultPrecision)
      ensures Valid() && State() == Initial(defaultPrecision)
    {
      precision := defaultPrecision;
      lapNames, laps := [], map[];
      startCount, lastCount := None, None;
      totalCount := 0.0;
      status := Stopped;
    }

    /** Stopwatch(default_precision): a zero or too large precision is refused. */
    static method New(defaultPrecision: int) returns (r: Result<Stopwatch>)
      ensures r.Err? <==> !ValidDefaultPrecision(defaultPrecision)
      ensures r.Err? ==> r.error == ValueError
      ensures r.Ok? ==> fresh(r.value) && r.value.Valid() && r.value.State() == Initial(defaultPrecision)
    {
      if defaultPrecision == 0 {
        return Err(ValueError);
      }
      if defaultPrecision > MAX_STOPWATCH_PRECISION {
        return Err(ValueError);
      }
      var w := new Stopwatch(defaultPrecision);
      return Ok(w);
    }

    method Start(now: real) returns (r: Outcome)
      requires Valid() && State().ClockNotBefore(now)
      modifies this
      ensures Valid() && State().ClockNotBefore(now)
      ensures match StartStep(old(State()), now)
                case Ok(t) => r == Done && State() == t
                case Err(e) => r == Fail(e) && State() == old(State())
    {
      if status != Stopped {
        return Fail(StatusError);
      }
      startCount := Some(now);
      status := Started;
      return Done;
    }

    /** Returns the rounded total, as get_watch with no precision would. */
    method Stop(now: real) returns (r: Result<real>)
      requires Valid() && State().ClockNotBefore(now)
      modifies this
      ensures Valid() && State().ClockNotBefore(now)
      ensures match StopStep(old(State()), now)
                case Ok(t) => State() == t && r == WatchValue(t, 0, now)
                case Err(e) => r == Err(e) && State() == old(State())
    {
      if status != Started {
        return Err(StatusError);
      }
      totalCount := totalCount + (now - startCount.value);
      status := Stopped;
      r := GetWatch(0, now);
    }

    /** Records a lap under `name` ("" for an automatic name); returns `now`. */
    method Lap(name: string, now: real) returns (r: Result<real>)
      requires Valid() && State().ClockNotBefore(now)
      modifies this
      ensures Valid() && State().ClockNotBefore(now)
      ensures match LapStep(old(State()), name, now)
                case Ok(t) => State() == t && r == Ok(now)
                case Err(e) => r == Err(e) && State() == old(State())
    {
      if name != "" && name in laps {
        return Err(LapNameError);
      }
      if status != Started {
        return Err(StatusError);
      }
      ghost var t0 := State();
      ghost var next := LapStep(t0, name, now);
      assert next.Ok? && next.value.WellFormed() && next.value.NonNegative() && next.value.ClockNotBefore(now);
      var key := if name != "" then name else "lap_" + NatToString(|lapNames| + 1);
      assert key == LapKey(t0, name);
      if lastCount.None? || lastCount.value == 0.0 {
        lastCount := startCount;
      }
      assert lastCount.value == LapReference(t0);
      if key !in laps {
        lapNames := lapNames + [key];
      }
      laps := laps[key := now - lastCount.value];
      lastCount := Some(now);
      assert lapNames == next.value.lapNames && laps == next.value.laps;
      assert State() == next.value;
      return Ok(now);
    }

    method Reset() returns (r: Outcome)
      requires Valid()
      modifies this
      ensures Valid()
      ensures match ResetStep(old(State()))
                case Ok(t) => r == Done && State() == t
                case Err(e) => r == Fail(e) && State() == old(State())
    {
      if status != Stopped {
        return Fail(StatusError);
      }
      lapNames, laps := [], map[];
      startCount, lastCount := None, None;
      totalCount := 0.0;
      return Done;
    }

    method HasLap(name: string) returns (r: Result<bool>)
      ensures r.Err? <==> name == ""
      ensures r.Err? ==> r.error == ValueError
      ensures r.Ok? ==> (r.value <==> name in State().laps)
    {
      if name == "" {
        return Err(ValueError);
      }
      return Ok(name in laps);
    }

    method GetLap(name: string, p: int) returns (r: Result<real>)
      ensures r == LapValue(State(), name, p)
    {
      if name == "" {
        return Err(ValueError);
      }
      var q := p;
      if q == 0 {
        q := precision;
      } else if q > MAX_STOPWATCH_PRECISION {
        return Err(ValueError);
      }
      if name !in laps {
        return Err(LapNameError);
      }
      return Ok(Round(laps[name], q));
    }

    /** get_lap_by_number(n) is get_lap("lap_" + str(n)). */
    method GetLapByNumber(n: int, p: int) returns (r: Result<real>)
      ensures r == LapValue(State(), "lap_" + IntToString(n), p)
    {
      r := GetLap("lap_" + IntToString(n), p);
    }

    method GetAverageOfLaps(p: int) returns (r: Result<real>)
      requires Valid()
      ensures r == AverageValue(State(), p)
    {
      var q := p;
      if q == 0 {
        q := precision;
      }
      if q > MAX_STOPWATCH_PRECISION {
        return Err(ValueError);
      }
      if |lapNames| == 0 {
        return Ok(0.0);
      }
      var sum := 0.0;
      var i := 0;
      while i < |lapNames|
        invariant 0 <= i <= |lapNames|
        invariant sum == SumLaps(lapNames[..i], laps)
      {
        assert lapNames[..i + 1][..i] == lapNames[..i];
        sum := sum + laps[lapNames[i]];
        i := i + 1;
      }
      assert lapNames[..i] == lapNames;
      return Ok(Round(sum / (|lapNames| as real), q));
    }

    /** get_laps: the keys of the lap dictionary, in insertion order. */
    function GetLaps(): (names: seq<string>)
      reads this
      ensures State().WellFormed() ==> (forall k :: k in names <==> k in laps) && |names| == |laps|
    {
      lapNames
    }

    /** get_lap_count: the size of the lap dictionary. */
    function GetLapCount(): (n: nat)
      reads this
      ensures State().WellFormed() ==> n == |laps|
    {
      |lapNames|
    }

    method GetWatch(p: int, now: real) returns (r: Result<real>)
      requires State().WellFormed()
      ensures r == WatchValue(State(), p, now)
    {
      var q := p;
      if q == 0 {
        q := precision;
      } else if q > MAX_STOPWATCH_PRECISION {
        return Err(ValueError);
      }
      if status == Started {
        return Ok(Round(totalCount + (now - startCount.value), q));
      }
      return Ok(Round(totalCount, q));
    }
  }
}
