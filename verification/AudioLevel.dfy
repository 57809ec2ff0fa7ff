/** The audio level meter of audio/audio_level.cc: a peak that is published every
    eleventh frame and then decays to a quarter.

    `Step` is the transition of one ComputeLevel call on values; class `AudioLevel`
    is the meter itself.  Energy and duration are reals, so floating-point rounding
    is not modelled. */
module AudioLevels {

  const UPDATE_FREQUENCY := 10
  const WINDOW := UPDATE_FREQUENCY + 1
  const INT16_MAX := 32767

  type Sample = x: int | -32768 <= x <= INT16_MAX
  type Level = x: int | 0 <= x <= INT16_MAX
  type Count = x: int | 0 <= x <= UPDATE_FREQUENCY

  datatype AudioFrame = AudioFrame(muted: bool, samples: seq<Sample>)

  /** The part of the meter that follows peaks. */
  datatype Detector = Detector(absMax: Level, count: Count, level: Level)

  datatype Meter = Meter(detector: Detector, energy: real, duration: real)

  /** What a frame contributes: its peak and how long it lasts. */
  datatype Input = Input(peak: Level, duration: real)

  const QUIET := Detector(0, 0, 0)

  function Max(a: int, b: int): int {
    if a < b then b else a
  }

  /** Absolute value, with -32768 saturated into the 16-bit range. */
  function Magnitude(x: Sample): Level {
    if x == -32768 then INT16_MAX else if x < 0 then -x else x
  }

  function Abs(x: int): nat {
    if x < 0 then -x else x
  }

  ghost predicate IsPeak(samples: seq<Sample>, m: int) {
    && (forall i :: 0 <= i < |samples| ==> Magnitude(samples[i]) <= m)
    && (m == 0 || exists i :: 0 <= i < |samples| && Magnitude(samples[i]) == m)
  }

  /** WebRtcSpl_MaxAbsValueW16: saturation happens once, after the loop. */
  method MaxAbsValue(samples: seq<Sample>) returns (m: Level)
    ensures IsPeak(samples, m)
  {
    var maximum := 0;
    for i := 0 to |samples|
      invariant 0 <= maximum <= 32768
      invariant forall j :: 0 <= j < i ==> Abs(samples[j]) <= maximum
      invariant maximum == 0 || exists j :: 0 <= j < i && Abs(samples[j]) == maximum
    {
      var absolute := Abs(samples[i]);
      if absolute > maximum {
        maximum := absolute;
      }
    }
    m := if maximum > INT16_MAX then INT16_MAX else maximum;
    if maximum != 0 {
      ghost var j :| 0 <= j < |samples| && Abs(samples[j]) == maximum;
      assert Magnitude(samples[j]) == m;
    }
  }

  /** The level side of one ComputeLevel call. */
  function Detect(d: Detector, peak: Level): Detector {
    var absMax: Level := Max(d.absMax, peak);
    if d.count == UPDATE_FREQUENCY
    then Detector(absMax / 4, 0, absMax)
    else Detector(absMax, d.count + 1, d.level)
  }

  function Fraction(level: Level): real {
    level as real / INT16_MAX as real
  }

  function Energy(level: Level, duration: real): real {
    Fraction(level) * Fraction(level) * duration
  }

  /** One ComputeLevel call. */
  function Step(m: Meter, x: Input): Meter {
    var detector := Detect(m.detector, x.peak);
    Meter(detector, m.energy + Energy(detector.level, x.duration), m.duration + x.duration)
  }

  function Run(d: Detector, peaks: seq<Level>): Detector {
    if peaks == [] then d else Detect(Run(d, peaks[..|peaks| - 1]), peaks[|peaks| - 1])
  }

  lemma {:induction false} RunAppend(m: Detector, xs: seq<Level>, ys: seq<Level>)
    ensures Run(m, xs + ys) == Run(Run(m, xs), ys)
    decreases |ys|
  {
    if ys == [] {
      assert xs + ys == xs;
    } else {
      RunAppend(m, xs, ys[..|ys| - 1]);
      assert (xs + ys)[..|xs + ys| - 1] == xs + ys[..|ys| - 1];
    }
  }

  // ---------------------------------------------------------------------
  // Closed form of the published level
  // ---------------------------------------------------------------------

  function Pow4(n: nat): nat
    ensures Pow4(n) > 0
  {
    if n == 0 then 1 else 4 * Pow4(n - 1)
  }

  function MaxOf(xs: seq<Level>): Level {
    if xs == [] then 0 else Max(MaxOf(xs[..|xs| - 1]), xs[|xs| - 1])
  }

  /** The loudest frame of window j. */
  function WindowPeak(xs: seq<Level>, j: nat): Level
    requires WINDOW * (j + 1) <= |xs|
  {
    MaxOf(xs[WINDOW * j..WINDOW * (j + 1)])
  }

  /** The peak of window j after it has decayed through the later windows up to the n-th. */
  function Decayed(xs: seq<Level>, j: nat, n: nat): int
    requires j < n && WINDOW * n <= |xs|
  {
    WindowPeak(xs, j) / Pow4(n - 1 - j)
  }

  lemma {:induction false} PartialWindow(m: Detector, xs: seq<Level>)
    requires m.count == 0 && |xs| <= UPDATE_FREQUENCY
    ensures Run(m, xs).count == |xs|
    ensures Run(m, xs).level == m.level
    ensures Run(m, xs).absMax == Max(m.absMax, MaxOf(xs))
    decreases |xs|
  {
    if xs != [] {
      PartialWindow(m, xs[..|xs| - 1]);
    }
  }

  lemma {:induction false} FullWindow(m: Detector, xs: seq<Level>)
    requires m.count == 0 && |xs| == WINDOW
    ensures Run(m, xs).count == 0
    ensures Run(m, xs).level == Max(m.absMax, MaxOf(xs))
    ensures Run(m, xs).absMax == Run(m, xs).level / 4
  {
    PartialWindow(m, xs[..UPDATE_FREQUENCY]);
  }

  lemma Distribute(p: nat, a: nat, b: nat)
    ensures p * (4 * a + b) == 4 * p * a + p * b
    ensures b <= 3 ==> p * b <= 3 * p
  {
  }

  lemma NestedDivision(x: nat, p: nat)
    requires p > 0
    ensures (x / p) / 4 == x / (4 * p)
  {
    var q, r := x / p, x % p;
    assert x == p * q + r;
    var a, b := q / 4, q % 4;
    assert q == 4 * a + b;
    Distribute(p, a, b);
    DivUnique(x, 4 * p, a, p * b + r);
  }

  lemma NestedFloor(x: nat, n: nat)
    ensures (x / Pow4(n)) / 4 == x / Pow4(n + 1)
  {
    NestedDivision(x, Pow4(n));
  }

  lemma MulGap(d: nat, k: int)
    ensures k >= 1 ==> d * k >= d
    ensures k <= -1 ==> d * k + d <= 0
  {
  }

  lemma DivUnique(x: nat, d: nat, q: nat, r: nat)
    requires d > 0 && x == d * q + r && r < d
    ensures x / d == q
  {
    var q', r' := x / d, x % d;
    assert x == d * q' + r';
    MulGap(d, q - q');
    assert d * (q - q') == d * q - d * q';
  }

  lemma WindowPeakPrefix(xs: seq<Level>, ys: seq<Level>, j: nat)
    requires WINDOW * (j + 1) <= |xs|
    ensures WindowPeak(xs + ys, j) == WindowPeak(xs, j)
  {
    assert (xs + ys)[WINDOW * j..WINDOW * (j + 1)] == xs[WINDOW * j..WINDOW * (j + 1)];
  }

  /** After n full windows since a reset the published level is the maximum over the
      windows j of floor(peak of window j / 4^(windows since j)): it bounds every such
      term and is one of them. */
  lemma {:induction false} PeakDecay(m: Detector, xs: seq<Level>, n: nat)
    requires m.absMax == 0 && m.count == 0
    requires 0 < n && |xs| == WINDOW * n
    ensures forall j :: 0 <= j < n ==> Decayed(xs, j, n) <= Run(m, xs).level
    ensures exists j :: 0 <= j < n && Decayed(xs, j, n) == Run(m, xs).level
    ensures Run(m, xs).count == 0
    ensures Run(m, xs).absMax == Run(m, xs).level / 4
    decreases n
  {
    hide Decayed;
    var before, last := xs[..WINDOW * (n - 1)], xs[WINDOW * (n - 1)..];
    assert xs == before + last;
    RunAppend(m, before, last);
    if n > 1 {
      PeakDecay(m, before, n - 1);
    }
    var mid := Run(m, before);
    FullWindow(mid, last);
    LastWindow(xs, n);
    forall j | 0 <= j < n - 1
      ensures Decayed(xs, j, n) == Decayed(before, j, n - 1) / 4
    {
      EarlierWindow(xs, j, n);
    }
    var level := Run(m, xs).level;
    if level == MaxOf(last) {
      assert Decayed(xs, n - 1, n) == level;
    } else {
      var j :| 0 <= j < n - 1 && Decayed(before, j, n - 1) == mid.level;
      assert Decayed(xs, j, n) == level;
    }
  }

  lemma LastWindow(xs: seq<Level>, n: nat)
    requires 0 < n && |xs| == WINDOW * n
    ensures Decayed(xs, n - 1, n) == MaxOf(xs[WINDOW * (n - 1)..])
  {
    assert xs[WINDOW * (n - 1)..WINDOW * n] == xs[WINDOW * (n - 1)..];
  }

  lemma EarlierWindow(xs: seq<Level>, j: nat, n: nat)
    requires j < n - 1 && |xs| == WINDOW * n
    ensures Decayed(xs, j, n) == Decayed(xs[..WINDOW * (n - 1)], j, n - 1) / 4
  {
    var before, last := xs[..WINDOW * (n - 1)], xs[WINDOW * (n - 1)..];
    assert xs == before + last;
    WindowPeakPrefix(before, last, j);
    NestedFloor(WindowPeak(before, j), n - 2 - j);
  }

  // ---------------------------------------------------------------------
  // Decay to silence
  // ---------------------------------------------------------------------

  /** Holds of a new or reset meter and is kept by every frame: right after a level
      is published the peak has just been divided by four. */
  ghost predicate Reachable(m: Detector) {
    m.count == 0 ==> m.absMax <= INT16_MAX / 4
  }

  ghost predicate Silent(xs: seq<Level>) {
    forall i :: 0 <= i < |xs| ==> xs[i] == 0
  }

  lemma {:induction false} MaxOfSilence(xs: seq<Level>)
    requires Silent(xs)
    ensures MaxOf(xs) == 0
  {
    if xs != [] {
      MaxOfSilence(xs[..|xs| - 1]);
    }
  }

  /** Finishing a started window in silence publishes the peak it already holds. */
  lemma {:induction false} FinishWindow(m: Detector, xs: seq<Level>)
    requires Silent(xs) && |xs| == WINDOW - m.count
    ensures var r := Run(m, xs);
            r.level == m.absMax && r.absMax == m.absMax / 4 && r.count == 0
  {
    PauseInWindow(m, xs[..|xs| - 1]);
  }

  lemma {:induction false} PauseInWindow(m: Detector, xs: seq<Level>)
    requires Silent(xs) && |xs| < WINDOW - m.count
    ensures var r := Run(m, xs);
            r.level == m.level && r.absMax == m.absMax && r.count == m.count + |xs|
    decreases |xs|
  {
    if xs != [] {
      PauseInWindow(m, xs[..|xs| - 1]);
    }
  }

  lemma {:induction false} SilentWindows(m: Detector, xs: seq<Level>, n: nat)
    requires Silent(xs) && m.count == 0 && 0 < n && |xs| == WINDOW * n
    ensures var r := Run(m, xs);
            r.level == m.absMax / Pow4(n - 1) && r.absMax == m.absMax / Pow4(n) && r.count == 0
    decreases n
  {
    var before, last := xs[..WINDOW * (n - 1)], xs[WINDOW * (n - 1)..];
    assert xs == before + last;
    RunAppend(m, before, last);
    if n > 1 {
      SilentWindows(m, before, n - 1);
    }
    FinishWindow(Run(m, before), last);
    NestedFloor(m.absMax, n - 1);
  }

  lemma {:induction false} StaysSilent(m: Detector, xs: seq<Level>)
    requires Silent(xs) && m.absMax == 0 && m.level == 0
    ensures Run(m, xs).level == 0 && Run(m, xs).absMax == 0
    decreases |xs|
  {
    if xs != [] {
      StaysSilent(m, xs[..|xs| - 1]);
    }
  }

  lemma Pow4Values()
    ensures Pow4(6) == 4096 && Pow4(7) == 16384 && Pow4(8) == 65536
  {
    assert Pow4(3) == 64;
    assert Pow4(6) == 64 * Pow4(3);
  }

  lemma SilenceFromBoundary(m: Detector, xs: seq<Level>)
    requires m.count == 0 && m.absMax <= INT16_MAX / 4 && Silent(xs) && |xs| >= 8 * WINDOW
    ensures Run(m, xs).level == 0
  {
    var eight, rest := xs[..8 * WINDOW], xs[8 * WINDOW..];
    assert xs == eight + rest;
    RunAppend(m, eight, rest);
    SilentWindows(m, eight, 8);
    Pow4Values();
    StaysSilent(Run(m, eight), rest);
  }

  lemma SilenceFromReachable(m: Detector, xs: seq<Level>)
    requires Reachable(m) && Silent(xs) && |xs| >= 98
    ensures Run(m, xs).level == 0
  {
    if m.count == 0 {
      SilenceFromBoundary(m, xs);
    } else {
      var head, rest := xs[..WINDOW - m.count], xs[WINDOW - m.count..];
      assert xs == head + rest;
      RunAppend(m, head, rest);
      FinishWindow(m, head);
      SilenceFromBoundary(Run(m, head), rest);
    }
  }

  /** Whatever was heard since the reset, 98 silent frames bring the level to zero. */
  lemma SilenceWithin98(heard: seq<Level>, xs: seq<Level>)
    requires Silent(xs) && |xs| >= 98
    ensures Run(QUIET, heard + xs).level == 0
  {
    RunAppend(QUIET, heard, xs);
    SilenceFromReachable(Run(QUIET, heard), xs);
  }

  /** The bound is the best possible: one loud frame is still audible 97 frames later. */
  lemma SilenceNeeds98(xs: seq<Level>)
    requires Silent(xs) && |xs| == 97
    ensures Run(QUIET, [INT16_MAX] + xs).level == 1
  {
    var a, b, c := xs[..10], xs[10..10 + 7 * WINDOW], xs[10 + 7 * WINDOW..];
    assert xs == (a + b) + c;
    RunAppend(QUIET, [INT16_MAX], xs);
    var m := Run(QUIET, [INT16_MAX]);
    assert m == Detector(INT16_MAX, 1, 0) by {
      assert m == Detect(Run(QUIET, [INT16_MAX][..0]), INT16_MAX);
    }
    RunAppend(m, a + b, c);
    RunAppend(m, a, b);
    FinishWindow(m, a);
    SilentWindows(Run(m, a), b, 7);
    Pow4Values();
    PauseInWindow(Run(m, a + b), c);
  }

  // ---------------------------------------------------------------------
  // Energy
  // ---------------------------------------------------------------------

  function RunMeter(m: Meter, xs: seq<Input>): Meter {
    if xs == [] then m else Step(RunMeter(m, xs[..|xs| - 1]), xs[|xs| - 1])
  }

  /** The square of the full scale, 32767. */
  const FULL_SCALE_SQUARED: real := 1_073_676_289.0

  function Scaled(energy: real): real {
    FULL_SCALE_SQUARED * energy
  }

  function Weighted(level: Level, duration: real): real {
    level as real * level as real * duration
  }

  lemma EnergyEquation(level: Level, duration: real)
    ensures Scaled(Energy(level, duration)) == Weighted(level, duration)
  {
    var f := Fraction(level);
    assert f * 32767.0 == level as real;
    Squares(f, level as real, duration);
  }

  lemma Squares(f: real, x: real, d: real)
    requires f * 32767.0 == x
    ensures FULL_SCALE_SQUARED * (f * f * d) == x * x * d
  {
    calc {
      x * x * d;
      (f * 32767.0) * (f * 32767.0) * d;
      (32767.0 * 32767.0) * (f * f * d);
    }
  }

  lemma Added(before: real, e: real, was: real)
    ensures Scaled(before + e - was) == Scaled(before - was) + Scaled(e)
  {
  }

  function Peaks(xs: seq<Input>): seq<Level> {
    if xs == [] then [] else Peaks(xs[..|xs| - 1]) + [xs[|xs| - 1].peak]
  }

  /** The squares of the levels published after each of the frames, weighted by duration. */
  function SquaredLevels(d: Detector, xs: seq<Input>): real {
    if xs == [] then 0.0
    else SquaredLevels(d, xs[..|xs| - 1]) + Weighted(Run(d, Peaks(xs)).level, xs[|xs| - 1].duration)
  }

  function TotalDuration(xs: seq<Input>): real {
    if xs == [] then 0.0 else TotalDuration(xs[..|xs| - 1]) + xs[|xs| - 1].duration
  }

  lemma {:induction false} MeterDetects(m: Meter, xs: seq<Input>)
    ensures RunMeter(m, xs).detector == Run(m.detector, Peaks(xs))
    ensures RunMeter(m, xs).duration == m.duration + TotalDuration(xs)
    decreases |xs|
  {
    hide Detect, Energy;
    if xs != [] {
      MeterDetects(m, xs[..|xs| - 1]);
      assert Peaks(xs)[..|Peaks(xs)| - 1] == Peaks(xs[..|xs| - 1]);
    }
  }

  /** Over any frames the energy gained is the sum of duration times the square of the level
      published by then, as a fraction of full scale, and the duration gained is theirs. */
  lemma {:induction false} EnergyIsSumOfSquares(m: Meter, xs: seq<Input>)
    ensures Scaled(RunMeter(m, xs).energy - m.energy) == SquaredLevels(m.detector, xs)
    ensures RunMeter(m, xs).duration == m.duration + TotalDuration(xs)
    decreases |xs|
  {
    hide Energy, Detect, Scaled, Weighted, Run;
    MeterDetects(m, xs);
    if xs == [] {
      assert Scaled(m.energy - m.energy) == 0.0 by {
        ScaledZero(m.energy);
      }
    } else {
      var before, x := xs[..|xs| - 1], xs[|xs| - 1];
      EnergyIsSumOfSquares(m, before);
      var r, level := RunMeter(m, before), RunMeter(m, xs).detector.level;
      EnergyEquation(level, x.duration);
      Added(r.energy, Energy(level, x.duration), m.energy);
    }
  }

  lemma ScaledZero(e: real)
    ensures Scaled(e - e) == 0.0
  {
  }

  lemma Product(a: real, b: real)
    requires a >= 0.0 && b >= 0.0
    ensures a * b >= 0.0
  {
  }

  lemma EnergyBounds(level: Level, duration: real)
    requires duration >= 0.0
    ensures 0.0 <= Energy(level, duration) <= duration
  {
    var f := Fraction(level);
    assert 0.0 <= f <= 1.0;
    Product(f, f);
    Product(f, 1.0 - f);
    Product(f * f, duration);
    Product(1.0 - f * f, duration);
  }

  /** With non-negative durations the accumulated energy never exceeds the accumulated time. */
  lemma {:induction false} EnergyWithinDuration(m: Meter, xs: seq<Input>)
    requires 0.0 <= m.energy <= m.duration
    requires forall i :: 0 <= i < |xs| ==> xs[i].duration >= 0.0
    ensures 0.0 <= RunMeter(m, xs).energy <= RunMeter(m, xs).duration
    decreases |xs|
  {
    if xs != [] {
      var before, x := RunMeter(m, xs[..|xs| - 1]), xs[|xs| - 1];
      EnergyWithinDuration(m, xs[..|xs| - 1]);
      EnergyBounds(Detect(before.detector, x.peak).level, x.duration);
    }
  }

  // ---------------------------------------------------------------------
  // The meter object
  // ---------------------------------------------------------------------

  class AudioLevel {
    var absMax: Level
    var count: Count
    var currentLevelFullRange: Level
    var totalEnergy: real
    var totalDuration: real

    ghost function Value(): Meter
      reads this
    {
      Meter(Detector(absMax, count, currentLevelFullRange), totalEnergy, totalDuration)
    }

    constructor ()
      ensures Value() == Meter(QUIET, 0.0, 0.0)
    {
      absMax, count, currentLevelFullRange := 0, 0, 0;
      totalEnergy, totalDuration := 0.0, 0.0;
    }

    method Reset()
      modifies this
      ensures Value() == Meter(QUIET, 0.0, 0.0)
    {
      absMax := 0;
      count := 0;
      currentLevelFullRange := 0;
      totalEnergy := 0.0;
      totalDuration := 0.0;
    }

    /** Forgets the level but keeps the accumulated energy and duration. */
    method ResetLevelFullRange()
      modifies this
      ensures Value() == Meter(QUIET, old(totalEnergy), old(totalDuration))
    {
      absMax := 0;
      count := 0;
      currentLevelFullRange := 0;
    }

    method ComputeLevel(frame: AudioFrame, duration: real) returns (ghost peak: Level)
      modifies this
      ensures if frame.muted then peak == 0 else IsPeak(frame.samples, peak)
      ensures Value() == Step(old(Value()), Input(peak, duration))
      ensures Reachable(Value().detector)
      ensures Scaled(totalEnergy - old(totalEnergy)) == Weighted(currentLevelFullRange, duration)
    {
      hide Energy, Scaled, Weighted;
      var absValue := 0;
      if !frame.muted {
        absValue := MaxAbsValue(frame.samples);
      }
      peak := absValue;
      if absValue > absMax {
        absMax := absValue;
      }
      if count == UPDATE_FREQUENCY {
        currentLevelFullRange := absMax;
        count := 0;
        absMax := absMax / 4;
      } else {
        count := count + 1;
      }
      EnergyEquation(currentLevelFullRange, duration);
      Added(totalEnergy, Energy(currentLevelFullRange, duration), totalEnergy);
      ScaledZero(totalEnergy);
      totalEnergy := totalEnergy + Energy(currentLevelFullRange, duration);
      totalDuration := totalDuration + duration;
    }
  }
}
