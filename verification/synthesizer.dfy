/**
 * The `Synthesizer` class: the public `sine`, `triangle`, `sawtooth`, `pulse` and
 * `noise` calls, each one cycle from `Waveforms` passed through `_to_bytes`, and
 * the seeded random stream that `noise` consumes.
 */
module Synth {
  import opened Config
  import opened Errors
  import opened Bytes
  import opened Pcm
  import Waveforms

  /** `_to_bytes` ends: the cycle of a non-zero frequency is non-empty, or the buffer is. */
  predicate Terminates(frequency: real, length: real)
  {
    frequency != 0.0 ==> Waveforms.Period(frequency) > 0 || SampleCount(length) <= 0
  }

  /** Every `_start`-based cycle scales a value in [-1, 1] by the clamped amplitude, so it quantises. */
  lemma WithinUnitQuantisable(cycle: seq<real>, a: real)
    requires 0.0 <= a <= 1.0
    requires forall t :: 0 <= t < |cycle| ==> -a <= cycle[t] <= a
    ensures Quantisable(cycle)
  {
    UnitCycleQuantisable(cycle);
  }

  class Synthesizer {
    /** The draws of the seeded generator, in order: `RandomState.uniform(-1, 1)` yields values in [-1, 1). */
    const uniform: nat -> real
    /** How many draws `noise` has consumed so far. */
    var drawn: nat

    ghost predicate Valid()
    {
      forall k :: -1.0 <= uniform(k) < 1.0
    }

    /** `Synthesizer(seed)`: the seed fixes the stream; the generator itself is not part of this model. */
    constructor (stream: nat -> real)
      requires forall k :: -1.0 <= stream(k) < 1.0
      ensures Valid() && uniform == stream && drawn == 0
    {
      uniform := stream;
      drawn := 0;
    }

    /** `pulse`: a pulse cycle tiled over `length` seconds as int16 bytes. */
    method Pulse(frequency: real, amplitude: real, length: real, dutyCycle: int := 50) returns (r: Result<seq<byte>>)
      requires Terminates(frequency, length)
      ensures frequency == 0.0 ==> r == Err(ZeroDivision)
      ensures frequency != 0.0 ==> (r.Err? <==> SampleCount(length) < 0)
      ensures frequency != 0.0 && r.Err? ==> r.error == NegativeDimensions
      ensures r.Ok? ==> |r.value| == 2 * SampleCount(length)
      ensures r.Ok? ==> var cycle := Waveforms.Pulse(frequency, amplitude, dutyCycle).value;
        forall k :: 0 <= k < SampleCount(length) ==>
          DecodeInt16(r.value[2 * k..2 * k + 2]) == Quantise(cycle[k % |cycle|])
    {
      var cycle := Waveforms.Pulse(frequency, amplitude, dutyCycle);
      if cycle.Err? {
        return Err(cycle.error);
      }
      WithinUnitQuantisable(cycle.value, Waveforms.Clamp(amplitude));
      r := ToBytes(cycle.value, length);
    }

    /** `sawtooth`: a ramp cycle tiled over `length` seconds as int16 bytes. */
    method Sawtooth(frequency: real, amplitude: real, length: real) returns (r: Result<seq<byte>>)
      requires Terminates(frequency, length)
      ensures frequency == 0.0 ==> r == Err(ZeroDivision)
      ensures frequency != 0.0 ==> (r.Err? <==> SampleCount(length) < 0)
      ensures frequency != 0.0 && r.Err? ==> r.error == NegativeDimensions
      ensures r.Ok? ==> |r.value| == 2 * SampleCount(length)
      ensures r.Ok? ==> var cycle := Waveforms.Sawtooth(frequency, amplitude).value;
        forall k :: 0 <= k < SampleCount(length) ==>
          DecodeInt16(r.value[2 * k..2 * k + 2]) == Quantise(cycle[k % |cycle|])
    {
      var cycle := Waveforms.Sawtooth(frequency, amplitude);
      if cycle.Err? {
        return Err(cycle.error);
      }
      if frequency > 0.0 {
        Waveforms.SawtoothBounds(frequency, amplitude);
      }
      WithinUnitQuantisable(cycle.value, Waveforms.Clamp(amplitude));
      r := ToBytes(cycle.value, length);
    }

    /**
     * `triangle`: a triangle cycle tiled over `length` seconds as int16 bytes. Its
     * samples can leave [-1, 1], so the caller must keep them inside the int16 cast.
     */
    method Triangle(frequency: real, amplitude: real, length: real) returns (r: Result<seq<byte>>)
      requires frequency != 0.0 && Waveforms.Period(frequency) < 0 ==> SampleCount(length) <= 0
      requires Waveforms.Triangle(frequency, amplitude).Ok? ==> Quantisable(Waveforms.Triangle(frequency, amplitude).value)
      ensures r.Err? && r.error == ZeroDivision <==> frequency == 0.0 || Waveforms.Period(frequency) == 0
      ensures r.Err? && r.error != ZeroDivision <==>
        frequency != 0.0 && Waveforms.Period(frequency) != 0 && SampleCount(length) < 0
      ensures r == Err(NegativeDimensions) <==>
        frequency != 0.0 && Waveforms.Period(frequency) != 0 && SampleCount(length) < 0
      ensures r.Ok? ==> |r.value| == 2 * SampleCount(length)
      ensures r.Ok? ==> var cycle := Waveforms.Triangle(frequency, amplitude).value;
        forall k :: 0 <= k < SampleCount(length) ==>
          DecodeInt16(r.value[2 * k..2 * k + 2]) == Quantise(cycle[k % |cycle|])
    {
      var cycle := Waveforms.Triangle(frequency, amplitude);
      if cycle.Err? {
        return Err(cycle.error);
      }
      r := ToBytes(cycle.value, length);
    }

    /** `sine`, with the floating-point sine and pi as parameters. */
    method Sine(frequency: real, amplitude: real, length: real, sin: real -> real, pi: real)
      returns (r: Result<seq<byte>>)
      requires forall x :: -1.0 <= sin(x) <= 1.0
      requires Terminates(frequency, length)
      ensures frequency == 0.0 ==> r == Err(ZeroDivision)
      ensures frequency != 0.0 ==> (r.Err? <==> SampleCount(length) < 0)
      ensures frequency != 0.0 && r.Err? ==> r.error == NegativeDimensions
      ensures r.Ok? ==> |r.value| == 2 * SampleCount(length)
      ensures r.Ok? ==> var cycle := Waveforms.Sine(frequency, amplitude, sin, pi).value;
        forall k :: 0 <= k < SampleCount(length) ==>
          DecodeInt16(r.value[2 * k..2 * k + 2]) == Quantise(cycle[k % |cycle|])
    {
      var cycle := Waveforms.Sine(frequency, amplitude, sin, pi);
      if cycle.Err? {
        return Err(cycle.error);
      }
      Waveforms.SineWithinAmplitude(frequency, amplitude, sin, pi);
      WithinUnitQuantisable(cycle.value, Waveforms.Clamp(amplitude));
      r := ToBytes(cycle.value, length);
    }

    /**
     * `_noise`: `period` fresh draws from the stream, scaled by the amplitude as
     * given. Unlike the other waveforms the amplitude is not clamped.
     */
    method NoiseCycle(frequency: real, amplitude: real) returns (r: Result<seq<real>>)
      modifies this
      ensures frequency == 0.0 ==> r == Err(ZeroDivision) && drawn == old(drawn)
      ensures frequency != 0.0 && Waveforms.Period(frequency) < 0 ==>
        r == Err(NegativeDimensions) && drawn == old(drawn)
      ensures frequency != 0.0 && Waveforms.Period(frequency) >= 0 ==>
        r == Ok(ScaledDraws(uniform, old(drawn), Waveforms.Period(frequency), amplitude)) &&
        drawn == old(drawn) + Waveforms.Period(frequency)
    {
      if frequency == 0.0 {
        return Err(ZeroDivision);
      }
      var period := Waveforms.Period(frequency);
      if period < 0 {
        return Err(NegativeDimensions);
      }
      r := Ok(ScaledDraws(uniform, drawn, period, amplitude));
      drawn := drawn + period;
    }

    /** `noise`: a noise cycle tiled over `length` seconds as int16 bytes; the draws are consumed either way. */
    method Noise(frequency: real, amplitude: real, length: real) returns (r: Result<seq<byte>>)
      requires Valid()
      requires -1.0 <= amplitude <= 1.0
      requires frequency != 0.0 && Waveforms.Period(frequency) == 0 ==> SampleCount(length) <= 0
      modifies this
      ensures frequency == 0.0 ==> r == Err(ZeroDivision) && drawn == old(drawn)
      ensures frequency != 0.0 && Waveforms.Period(frequency) < 0 ==>
        r == Err(NegativeDimensions) && drawn == old(drawn)
      ensures frequency != 0.0 && Waveforms.Period(frequency) >= 0 ==>
        drawn == old(drawn) + Waveforms.Period(frequency) &&
        (r.Err? <==> SampleCount(length) < 0)
      ensures frequency != 0.0 && r.Err? ==> r.error == NegativeDimensions
      ensures r.Ok? ==> |r.value| == 2 * SampleCount(length)
      ensures r.Ok? ==> var cycle := ScaledDraws(uniform, old(drawn), Waveforms.Period(frequency), amplitude);
        forall k :: 0 <= k < SampleCount(length) ==>
          DecodeInt16(r.value[2 * k..2 * k + 2]) == Quantise(cycle[k % |cycle|])
    {
      ghost var start := drawn;
      var cycle := NoiseCycle(frequency, amplitude);
      if cycle.Err? {
        return Err(cycle.error);
      }
      var samples := cycle.value;
      DrawsQuantisable(uniform, start, |samples|, amplitude);
      r := ToBytes(samples, length);
    }
  }

  /** `uniform(-1, 1, size=period)` times the amplitude: draws start .. start + period - 1 of the stream, scaled. */
  function ScaledDraws(uniform: nat -> real, start: nat, period: nat, amplitude: real): (s: seq<real>)
    ensures |s| == period
  {
    seq(period, t requires 0 <= t < period => uniform(start + t) * amplitude)
  }

  /** Two noise cycles in a row read one unbroken stretch of the stream: nothing is skipped or reused. */
  lemma ConsecutiveCycles(uniform: nat -> real, start: nat, p1: nat, p2: nat, amplitude: real)
    ensures ScaledDraws(uniform, start, p1, amplitude) + ScaledDraws(uniform, start + p1, p2, amplitude)
      == ScaledDraws(uniform, start, p1 + p2, amplitude)
  {
    var a, b := ScaledDraws(uniform, start, p1, amplitude), ScaledDraws(uniform, start + p1, p2, amplitude);
    var c := ScaledDraws(uniform, start, p1 + p2, amplitude);
    forall t | 0 <= t < p1 + p2
      ensures (a + b)[t] == c[t]
    {
      if t >= p1 {
        assert b[t - p1] == uniform(start + p1 + (t - p1)) * amplitude;
      }
    }
  }

  lemma DrawTimesAmplitude(u: real, a: real)
    requires -1.0 <= u < 1.0 && -1.0 <= a <= 1.0
    ensures -1.0 <= u * a <= 1.0
  {
    if a >= 0.0 {
      Waveforms.UnitScale(a, u);
      assert u * a == a * u;
    } else {
      Waveforms.UnitScale(-a, u);
      assert u * a == -((-a) * u);
    }
  }

  /** Draws in [-1, 1) scaled by an amplitude in [-1, 1] quantise. */
  lemma DrawsQuantisable(uniform: nat -> real, start: nat, period: nat, amplitude: real)
    requires -1.0 <= amplitude <= 1.0
    requires forall k :: -1.0 <= uniform(k) < 1.0
    ensures Quantisable(ScaledDraws(uniform, start, period, amplitude))
  {
    var samples := ScaledDraws(uniform, start, period, amplitude);
    forall t | 0 <= t < |samples|
      ensures -1.0 <= samples[t] <= 1.0
    {
      DrawTimesAmplitude(uniform(start + t), amplitude);
    }
    UnitCycleQuantisable(samples);
  }

  /**
   * At full amplitude the triangle leaves the int16 range: at 441 Hz (period 100)
   * its first sample is -1.02, which scales to -33422.
   */
  lemma TriangleFullAmplitudeOverflows()
    ensures Waveforms.Triangle(441.0, 1.0).Ok?
    ensures Waveforms.Triangle(441.0, 1.0).value[0] == -1.02
    ensures Quantise(Waveforms.Triangle(441.0, 1.0).value[0]) == -33422
    ensures !Quantisable(Waveforms.Triangle(441.0, 1.0).value)
  {
    assert Waveforms.Period(441.0) == 100;
    Waveforms.TriangleFirstSample(441.0, 1.0);
    assert Quantise(-1.02) == -33422;
  }

  /** Above the frame rate the cycle is empty while the buffer is not, so `_to_bytes` never returns. */
  lemma HighFrequencyNeverTerminates()
    ensures Waveforms.Period(50000.0) == 0
    ensures SampleCount(1.0) == 44100
    ensures !Terminates(50000.0, 1.0)
  {
    Waveforms.PeriodZeroIff(50000.0);
  }
}
