/**
 * One cycle of each deterministic waveform (`_start`, `_pulse`, `_sawtooth`,
 * `_triangle`, `_sine` in chipnumpy/synthesizer.py). NumPy float64 arithmetic
 * is idealised as exact real arithmetic.
 */
module Waveforms {
  import opened Config
  import opened Errors
  import opened Numerics

  /** What every waveform starts from: the period, the clamped amplitude and the sample indices. */
  datatype Setup = Setup(period: int, amplitude: real, arr: seq<real>)

  /** The amplitude clamped into [0, 1]: out-of-range amplitudes are never rejected. */
  function Clamp(amplitude: real): (a: real)
    ensures 0.0 <= a <= 1.0
  {
    if amplitude < 0.0 then 0.0 else if amplitude > 1.0 then 1.0 else amplitude
  }

  /** `int(FRAMERATE / frequency)`; a frequency of 0 raises ZeroDivisionError instead. */
  function Period(frequency: real): (r: int)
    requires frequency != 0.0
    ensures 0.0 < frequency ==> 0 <= r && r as real <= FrameRate as real / frequency < r as real + 1.0
    ensures frequency < 0.0 ==> r <= 0 && r as real - 1.0 < FrameRate as real / frequency <= r as real
  {
    Trunc(FrameRate as real / frequency)
  }

  /** `np.arange(0, n)` as float64: empty when n is not positive. */
  function Arange(n: int): (arr: seq<real>)
    ensures |arr| == if n < 0 then 0 else n
  {
    seq(if n < 0 then 0 else n, i => i as real)
  }

  /** `_start`: the shared setup of `_sine`, `_triangle`, `_sawtooth` and `_pulse`. */
  function Start(frequency: real, amplitude: real): (r: Result<Setup>)
    ensures r.Err? <==> frequency == 0.0
    ensures r.Err? ==> r.error == ZeroDivision
    ensures r.Ok? ==> r.value.period == Period(frequency)
    ensures r.Ok? ==> r.value.amplitude == Clamp(amplitude)
    ensures r.Ok? ==> |r.value.arr| == (if r.value.period < 0 then 0 else r.value.period)
    ensures r.Ok? ==> forall t :: 0 <= t < |r.value.arr| ==> r.value.arr[t] == t as real
  {
    if frequency == 0.0 then Err(ZeroDivision)
    else
      var period := Period(frequency);
      Ok(Setup(period, Clamp(amplitude), Arange(period)))
  }

  // ---------------------------------------------------------------- clamping

  /** Clamping twice is clamping once. */
  lemma ClampIdempotent(amplitude: real)
    ensures Clamp(Clamp(amplitude)) == Clamp(amplitude)
  {
  }

  /** The clamp picks the point of [0, 1] nearest to the requested amplitude. */
  lemma ClampIsNearest(amplitude: real, y: real)
    requires 0.0 <= y <= 1.0
    ensures Abs(Clamp(amplitude) - amplitude) <= Abs(y - amplitude)
  {
  }

  function Abs(x: real): real { if x < 0.0 then -x else x }

  // ---------------------------------------------------------------- period

  /** For a positive frequency the period is the largest whole number of samples fitting in one cycle. */
  lemma PeriodBracket(frequency: real)
    requires frequency > 0.0
    ensures Period(frequency) >= 0
    ensures (Period(frequency) as real) * frequency <= FrameRate as real
    ensures FrameRate as real < (Period(frequency) as real + 1.0) * frequency
  {
    var x := FrameRate as real / frequency;
    var p := Period(frequency) as real;
    assert x * frequency == FrameRate as real;
    assert p <= x < p + 1.0;
    assert p * frequency <= x * frequency;
    assert x * frequency < (p + 1.0) * frequency;
  }

  /** The period is 0 exactly for frequencies above the frame rate. */
  lemma PeriodZeroIff(frequency: real)
    requires frequency > 0.0
    ensures Period(frequency) == 0 <==> frequency > FrameRate as real
  {
    PeriodBracket(frequency);
    if frequency > FrameRate as real {
      assert (Period(frequency) as real) * frequency < frequency;
    } else {
      assert 1.0 * frequency <= FrameRate as real;
    }
  }

  /** Every `_start` array has exactly `period` entries, counting 0, 1, 2, ... */
  lemma StartArrayIsIndices(frequency: real, amplitude: real)
    requires frequency > 0.0
    ensures Start(frequency, amplitude).Ok?
    ensures |Start(frequency, amplitude).value.arr| == Period(frequency)
  {
    PeriodBracket(frequency);
  }

  // ---------------------------------------------------------------- pulse

  /** `int(duty_cycle * period / 100)`: how many samples of the cycle are high. */
  function Threshold(dutyCycle: int, period: int): (r: int)
    ensures 0 <= dutyCycle * period ==> 0 <= r && 100 * r <= dutyCycle * period < 100 * r + 100
    ensures dutyCycle * period < 0 ==> r <= 0 && 100 * r - 100 < dutyCycle * period <= 100 * r
  {
    Trunc((dutyCycle * period) as real / 100.0)
  }

  /** `_pulse`: +amplitude for the indices below the threshold, -amplitude from it on. */
  function Pulse(frequency: real, amplitude: real, dutyCycle: int := 50): (r: Result<seq<real>>)
    ensures r.Err? <==> frequency == 0.0
    ensures r.Err? ==> r.error == ZeroDivision
    ensures r.Ok? ==> |r.value| == |Arange(Period(frequency))|
  {
    match Start(frequency, amplitude)
    case Err(e) => Err(e)
    case Ok(s) =>
      var threshold := Threshold(dutyCycle, s.period);
      Ok(seq(|s.arr|, t requires 0 <= t < |s.arr| =>
        s.amplitude * (((if s.arr[t] < threshold as real then 1 else 0) * 2 - 1) as real)))
  }

  /** A duty cycle in [0, 100] puts the threshold inside the cycle. */
  lemma ThresholdWithinPeriod(dutyCycle: int, period: int)
    requires 0 <= dutyCycle <= 100 && 0 <= period
    ensures 0 <= Threshold(dutyCycle, period) <= period
  {
    assert 0 <= dutyCycle * period <= 100 * period;
    TruncMonotone((dutyCycle * period) as real / 100.0, period as real);
    TruncOfInt(period);
  }

  /** For any duty cycle the pulse is high strictly before the threshold and low from it on; a duty cycle in [0, 100] puts the threshold inside the cycle. */
  lemma PulseShape(frequency: real, amplitude: real, dutyCycle: int)
    requires frequency > 0.0
    ensures Pulse(frequency, amplitude, dutyCycle).Ok?
    ensures |Pulse(frequency, amplitude, dutyCycle).value| == Period(frequency)
    ensures 0 <= dutyCycle <= 100 ==> 0 <= Threshold(dutyCycle, Period(frequency)) <= Period(frequency)
    ensures forall t :: 0 <= t < Period(frequency) ==>
      Pulse(frequency, amplitude, dutyCycle).value[t] ==
        if t < Threshold(dutyCycle, Period(frequency)) then Clamp(amplitude) else -Clamp(amplitude)
  {
    PeriodBracket(frequency);
    if 0 <= dutyCycle <= 100 {
      ThresholdWithinPeriod(dutyCycle, Period(frequency));
    }
  }

  /** The pulse at 100 Hz with the default 50% duty cycle: 441 samples, of which the first 220 are high. */
  lemma PulseAt100Hz()
    ensures Pulse(100.0, 1.0).Ok?
    ensures |Pulse(100.0, 1.0).value| == 441
    ensures forall t :: 0 <= t < 220 ==> Pulse(100.0, 1.0).value[t] == 1.0
    ensures forall t :: 220 <= t < 441 ==> Pulse(100.0, 1.0).value[t] == -1.0
  {
    assert Period(100.0) == 441;
    assert Threshold(50, 441) == 220;
    PulseShape(100.0, 1.0, 50);
  }

  // ---------------------------------------------------------------- sawtooth

  /** `_sawtooth`: a ramp from -amplitude, rising by 2 * amplitude * frequency / FRAMERATE per sample. */
  function Sawtooth(frequency: real, amplitude: real): (r: Result<seq<real>>)
    ensures r.Err? <==> frequency == 0.0
    ensures r.Err? ==> r.error == ZeroDivision
    ensures r.Ok? ==> |r.value| == |Arange(Period(frequency))|
  {
    match Start(frequency, amplitude)
    case Err(e) => Err(e)
    case Ok(s) =>
      Ok(seq(|s.arr|, t requires 0 <= t < |s.arr| =>
        SawtoothAt(s.amplitude, frequency, FloorMod(s.arr[t], s.period as real))))
  }

  /** One `_sawtooth` sample at position x of the cycle, in the source's order of operations. */
  function SawtoothAt(a: real, f: real, x: real): real
  {
    a * (f * (x / FrameRate as real) * 2.0 - 1.0)
  }

  /** The textbook ramp: -a at 0, rising by 2af / FRAMERATE per sample. */
  function Ramp(a: real, f: real, x: real): real
  {
    a * (2.0 * f * x / FrameRate as real - 1.0)
  }

  lemma SawtoothIsRamp(a: real, f: real, x: real)
    ensures SawtoothAt(a, f, x) == Ramp(a, f, x)
  {
    assert f * (x / FrameRate as real) * 2.0 == 2.0 * f * x / FrameRate as real;
  }

  /** Inside one cycle the `% period` is the identity, so each sample is a linear function of its index. */
  lemma SawtoothSample(frequency: real, amplitude: real, t: int)
    requires frequency > 0.0 && 0 <= t < Period(frequency)
    ensures Sawtooth(frequency, amplitude).Ok?
    ensures |Sawtooth(frequency, amplitude).value| == Period(frequency)
    ensures Sawtooth(frequency, amplitude).value[t] == Ramp(Clamp(amplitude), frequency, t as real)
  {
    PeriodBracket(frequency);
    FloorModOfIndex(t as real, Period(frequency) as real);
    SawtoothIsRamp(Clamp(amplitude), frequency, t as real);
  }

  /** The ramp starts at -amplitude. */
  lemma SawtoothStartsLow(frequency: real, amplitude: real)
    requires 0.0 < frequency <= FrameRate as real
    ensures Sawtooth(frequency, amplitude).Ok?
    ensures |Sawtooth(frequency, amplitude).value| >= 1
    ensures Sawtooth(frequency, amplitude).value[0] == -Clamp(amplitude)
  {
    PeriodBracket(frequency);
    PeriodZeroIff(frequency);
    SawtoothSample(frequency, amplitude, 0);
  }

  /** Every ramp sample lies in [-amplitude, amplitude), or is 0 when the amplitude is 0. */
  lemma SawtoothBounds(frequency: real, amplitude: real)
    requires frequency > 0.0
    ensures Sawtooth(frequency, amplitude).Ok?
    ensures forall t :: 0 <= t < |Sawtooth(frequency, amplitude).value| ==>
      -Clamp(amplitude) <= Sawtooth(frequency, amplitude).value[t] <= Clamp(amplitude) &&
      (Clamp(amplitude) > 0.0 ==> Sawtooth(frequency, amplitude).value[t] < Clamp(amplitude))
  {
    var s := Sawtooth(frequency, amplitude).value;
    var a := Clamp(amplitude);
    forall t | 0 <= t < |s|
      ensures -a <= s[t] <= a && (a > 0.0 ==> s[t] < a)
    {
      SawtoothSampleBounds(frequency, amplitude, t);
    }
  }

  lemma SawtoothSampleBounds(frequency: real, amplitude: real, t: int)
    requires frequency > 0.0
    requires 0 <= t < |Sawtooth(frequency, amplitude).value|
    ensures -Clamp(amplitude) <= Sawtooth(frequency, amplitude).value[t] <= Clamp(amplitude)
    ensures Clamp(amplitude) > 0.0 ==> Sawtooth(frequency, amplitude).value[t] < Clamp(amplitude)
  {
    PeriodBracket(frequency);
    SawtoothSample(frequency, amplitude, t);
    RampBounds(frequency, Period(frequency), t, Clamp(amplitude));
  }

  /** For a positive amplitude the ramp rises strictly with the index. */
  lemma SawtoothIncreasing(frequency: real, amplitude: real)
    requires frequency > 0.0 && Clamp(amplitude) > 0.0
    ensures Sawtooth(frequency, amplitude).Ok?
    ensures forall i, j :: 0 <= i < j < |Sawtooth(frequency, amplitude).value| ==>
      Sawtooth(frequency, amplitude).value[i] < Sawtooth(frequency, amplitude).value[j]
  {
    var s := Sawtooth(frequency, amplitude).value;
    forall i, j | 0 <= i < j < |s|
      ensures s[i] < s[j]
    {
      SawtoothSampleStep(frequency, amplitude, i, j);
    }
  }

  lemma SawtoothSampleStep(frequency: real, amplitude: real, i: int, j: int)
    requires frequency > 0.0 && Clamp(amplitude) > 0.0
    requires 0 <= i < j < |Sawtooth(frequency, amplitude).value|
    ensures Sawtooth(frequency, amplitude).value[i] < Sawtooth(frequency, amplitude).value[j]
  {
    PeriodBracket(frequency);
    SawtoothSample(frequency, amplitude, i);
    SawtoothSample(frequency, amplitude, j);
    RampIncreasing(frequency, i, j, Clamp(amplitude));
  }

  /** The ramp value at an index inside the period lies in [-a, a), or is 0 when a is. */
  lemma RampBounds(f: real, p: int, t: int, a: real)
    requires 0.0 < f && 0 <= t < p && (p as real) * f <= FrameRate as real && 0.0 <= a
    ensures -a <= Ramp(a, f, t as real) <= a
    ensures a > 0.0 ==> Ramp(a, f, t as real) < a
  {
    assert f * (t as real) < f * (p as real);
    var u := 2.0 * f * (t as real) / FrameRate as real - 1.0;
    assert -1.0 <= u < 1.0;
    UnitScale(a, u);
    assert Ramp(a, f, t as real) == a * u;
  }

  /** The ramp strictly increases with the index for a positive amplitude. */
  lemma RampIncreasing(f: real, i: int, j: int, a: real)
    requires 0.0 < f && i < j && 0.0 < a
    ensures Ramp(a, f, i as real) < Ramp(a, f, j as real)
  {
    var ui := 2.0 * f * (i as real) / FrameRate as real - 1.0;
    var uj := 2.0 * f * (j as real) / FrameRate as real - 1.0;
    assert f * (i as real) < f * (j as real);
    assert ui < uj;
    assert a * uj - a * ui == a * (uj - ui);
  }

  /** Scaling a value of [-1, 1) by a non-negative amplitude lands in [-amplitude, amplitude]. */
  lemma UnitScale(a: real, u: real)
    requires 0.0 <= a && -1.0 <= u <= 1.0
    ensures -a <= a * u <= a
    ensures a > 0.0 && u < 1.0 ==> a * u < a
  {
    assert a * u - (-a) == a * (u + 1.0);
    assert a - a * u == a * (1.0 - u);
  }

  // ---------------------------------------------------------------- triangle

  /** `_triangle`, including its `- 1` offset; a half period of 0 raises ZeroDivisionError. */
  function Triangle(frequency: real, amplitude: real): (r: Result<seq<real>>)
    ensures r.Err? <==> frequency == 0.0 || Period(frequency) == 0
    ensures r.Err? ==> r.error == ZeroDivision
    ensures r.Ok? ==> |r.value| == |Arange(Period(frequency))|
  {
    match Start(frequency, amplitude)
    case Err(e) => Err(e)
    case Ok(s) =>
      var halfPeriod := s.period as real / 2.0;
      if halfPeriod == 0.0 then Err(ZeroDivision)
      else
        Ok(seq(|s.arr|, t requires 0 <= t < |s.arr| =>
          TriangleAt(s.amplitude, halfPeriod, FloorMod(s.arr[t], s.period as real))))
  }

  /** One `_triangle` sample at position x of a cycle with half period h. */
  function TriangleAt(a: real, h: real, x: real): real
    requires h != 0.0
  {
    (a / h) * (h - Abs(x - h) * 2.0 - 1.0)
  }

  /** The textbook triangle over one period 2h: -a at 0, a at h, back to -a at 2h. */
  function TextbookTriangle(a: real, h: real, t: real): real
    requires h > 0.0
  {
    a * (1.0 - 2.0 * Abs(t - h) / h)
  }

  /** Inside one cycle the `% period` is the identity. */
  lemma TriangleSample(frequency: real, amplitude: real, t: int)
    requires 0.0 < frequency <= FrameRate as real && 0 <= t < Period(frequency)
    ensures Triangle(frequency, amplitude).Ok?
    ensures |Triangle(frequency, amplitude).value| == Period(frequency)
    ensures Triangle(frequency, amplitude).value[t]
        == TriangleAt(Clamp(amplitude), Period(frequency) as real / 2.0, t as real)
  {
    PeriodBracket(frequency);
    PeriodZeroIff(frequency);
    FloorModOfIndex(t as real, Period(frequency) as real);
  }

  /** The triangle cycle is the textbook triangle shifted down by amplitude / half period. */
  lemma TriangleIsShiftedTextbook(frequency: real, amplitude: real, t: int)
    requires 0.0 < frequency <= FrameRate as real && 0 <= t < Period(frequency)
    ensures Triangle(frequency, amplitude).Ok?
    ensures |Triangle(frequency, amplitude).value| == Period(frequency)
    ensures var h := Period(frequency) as real / 2.0;
      Triangle(frequency, amplitude).value[t]
        == TextbookTriangle(Clamp(amplitude), h, t as real) - Clamp(amplitude) / h
  {
    PeriodZeroIff(frequency);
    TriangleSample(frequency, amplitude, t);
    ShiftedTextbook(Clamp(amplitude), Period(frequency) as real / 2.0, t as real);
  }

  lemma ShiftedTextbook(a: real, h: real, t: real)
    requires h > 0.0
    ensures TriangleAt(a, h, t) == TextbookTriangle(a, h, t) - a / h
  {
    var d := Abs(t - h);
    assert (a / h) * (h - d * 2.0 - 1.0) == (a / h) * h - (a / h) * (d * 2.0) - a / h;
    assert (a / h) * h == a;
    assert (a / h) * (d * 2.0) == a * (2.0 * d / h);
  }

  /** The first triangle sample is -amplitude * (1 + 1 / h), below -amplitude whenever the amplitude is positive. */
  lemma TriangleFirstSample(frequency: real, amplitude: real)
    requires 0.0 < frequency <= FrameRate as real
    ensures Triangle(frequency, amplitude).Ok?
    ensures var h := Period(frequency) as real / 2.0;
      Triangle(frequency, amplitude).value[0] == -Clamp(amplitude) * (1.0 + 1.0 / h)
    ensures Clamp(amplitude) > 0.0 ==> Triangle(frequency, amplitude).value[0] < -Clamp(amplitude)
  {
    PeriodBracket(frequency);
    PeriodZeroIff(frequency);
    TriangleIsShiftedTextbook(frequency, amplitude, 0);
    FirstSampleArithmetic(Clamp(amplitude), Period(frequency) as real / 2.0);
  }

  lemma FirstSampleArithmetic(a: real, h: real)
    requires h > 0.0
    ensures TextbookTriangle(a, h, 0.0) - a / h == -a * (1.0 + 1.0 / h)
    ensures a > 0.0 ==> -a * (1.0 + 1.0 / h) < -a
  {
    assert TextbookTriangle(a, h, 0.0) == -a;
    assert a / h == a * (1.0 / h);
    if a > 0.0 {
      assert a * (1.0 / h) > 0.0;
    }
  }

  /** Every triangle sample lies in [-a - a/h, a - a/h]. */
  lemma TriangleBounds(frequency: real, amplitude: real)
    requires 0.0 < frequency <= FrameRate as real
    ensures Triangle(frequency, amplitude).Ok?
    ensures var h := Period(frequency) as real / 2.0;
      var a := Clamp(amplitude);
      forall t :: 0 <= t < |Triangle(frequency, amplitude).value| ==>
        -a - a / h <= Triangle(frequency, amplitude).value[t] <= a - a / h
  {
    PeriodZeroIff(frequency);
    var h := Period(frequency) as real / 2.0;
    var a := Clamp(amplitude);
    var s := Triangle(frequency, amplitude).value;
    forall t | 0 <= t < |s|
      ensures -a - a / h <= s[t] <= a - a / h
    {
      TriangleIsShiftedTextbook(frequency, amplitude, t);
      TextbookBounds(a, h, t as real);
    }
  }

  /** Over one period [0, 2h) the textbook triangle stays within [-a, a]. */
  lemma TextbookBounds(a: real, h: real, t: real)
    requires 0.0 <= a && h > 0.0 && 0.0 <= t < 2.0 * h
    ensures -a <= TextbookTriangle(a, h, t) <= a
  {
    var d := Abs(t - h);
    assert d <= h;
    assert 2.0 * d / h <= 2.0 by {
      assert 2.0 * d / h * h == 2.0 * d;
    }
    UnitScale(a, 1.0 - 2.0 * d / h);
  }

  // ---------------------------------------------------------------- sine

  /**
   * `_sine`. The sine and pi of the floating-point library are parameters: the model
   * takes them as given rather than computing transcendental values.
   */
  function Sine(frequency: real, amplitude: real, sin: real -> real, pi: real): (r: Result<seq<real>>)
    ensures r.Err? <==> frequency == 0.0
    ensures r.Err? ==> r.error == ZeroDivision
    ensures r.Ok? ==> |r.value| == |Arange(Period(frequency))|
  {
    match Start(frequency, amplitude)
    case Err(e) => Err(e)
    case Ok(s) =>
      Ok(seq(|s.arr|, t requires 0 <= t < |s.arr| =>
        SineAt(sin, Phase(frequency, pi, s.arr[t], s.period), s.amplitude)))
  }

  /** One `_sine` sample: the sine of the phase, times the amplitude. */
  function SineAt(sin: real -> real, phase: real, a: real): real
  {
    sin(phase) * a
  }

  /** A sine bounded by 1 keeps each sample within [-a, a]. */
  lemma SineAtBounds(sin: real -> real, phase: real, a: real)
    requires -1.0 <= sin(phase) <= 1.0 && 0.0 <= a
    ensures -a <= SineAt(sin, phase, a) <= a
  {
    var u := sin(phase);
    UnitScale(a, u);
    assert SineAt(sin, phase, a) == u * a == a * u;
  }

  /** The argument handed to the sine: `2 * pi * frequency * (x % period) / FRAMERATE`. */
  function Phase(frequency: real, pi: real, x: real, period: int): real
    requires period != 0
  {
    2.0 * pi * frequency * FloorMod(x, period as real) / FrameRate as real
  }

  /** With a sine bounded by 1, every sample lies within the clamped amplitude. */
  lemma SineWithinAmplitude(frequency: real, amplitude: real, sin: real -> real, pi: real)
    requires frequency != 0.0
    requires forall x :: -1.0 <= sin(x) <= 1.0
    ensures Sine(frequency, amplitude, sin, pi).Ok?
    ensures forall t :: 0 <= t < |Sine(frequency, amplitude, sin, pi).value| ==>
      -Clamp(amplitude) <= Sine(frequency, amplitude, sin, pi).value[t] <= Clamp(amplitude)
  {
    var s := Sine(frequency, amplitude, sin, pi).value;
    var a := Clamp(amplitude);
    forall t | 0 <= t < |s|
      ensures -a <= s[t] <= a
    {
      var phase := Phase(frequency, pi, t as real, Period(frequency));
      assert s[t] == SineAt(sin, phase, a);
      SineAtBounds(sin, phase, a);
    }
  }

  // ---------------------------------------------------------------- amplitude

  /** The amplitude enters every `_start`-based waveform only through its clamped value. */
  lemma AmplitudeOnlyThroughClamp(frequency: real, a1: real, a2: real, dutyCycle: int, sin: real -> real, pi: real)
    requires Clamp(a1) == Clamp(a2)
    ensures Pulse(frequency, a1, dutyCycle) == Pulse(frequency, a2, dutyCycle)
    ensures Sawtooth(frequency, a1) == Sawtooth(frequency, a2)
    ensures Triangle(frequency, a1) == Triangle(frequency, a2)
    ensures Sine(frequency, a1, sin, pi) == Sine(frequency, a2, sin, pi)
  {
  }
}
