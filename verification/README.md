# chipnumpy synthesis and packing, modelled in Dafny

chipnumpy makes short chiptune waveforms. A `Synthesizer` builds one cycle of a
sine, triangle, sawtooth, pulse or noise wave at a given frequency. It quantises the
cycle to signed 16-bit PCM and tiles it over a buffer of `int(FRAMERATE * length)`
samples. It serialises the buffer as little-endian int16. `to_wav` then puts a 44-byte
RIFF/WAVE header in front of the buffer.

The model follows the Python file's own split:

- `config.dfy` (`Config`): the constants of `chipnumpy/constants.py`: FRAMERATE 44100,
  AMPLITUDE_SCALE 32767, NUM_CHANNELS 1 and NUM_BITS 16.
- `errors.dfy` (`Errors`): the exceptions the modelled code raises, carried in a `Result`.
  They are ZeroDivisionError, `ValueError` from a negative array size, `struct.error` and
  `TypeError`.
- `numerics.dfy` (`Numerics`): Python's `int()` of a float, which truncates toward zero,
  and NumPy's float `%`, which is a floor modulo.
- `bytes.dfy` (`Bytes`): the `<H`/`<I` little-endian fields and the int16
  two's-complement encoding, each with its decoder.
- `waveforms.dfy` (`Waveforms`): `_start`, `_pulse`, `_sawtooth`, `_triangle` and
  `_sine` as pure functions over exact reals.
- `pcm.dfy` (`Pcm`): `_to_bytes`, a method that fills a zeroed `array<int>` in a `while`
  loop. Beside it sit a reference tiling function and the serialisation.
- `wav.dfy` (`Wav`): `struct.pack` of the header fields, the header template and `to_wav`.
  It keeps both the code as written and the corrected code.
- `synthesizer.dfy` (`Synth`): the `Synthesizer` class. It holds the public `sine`,
  `triangle`, `sawtooth`, `pulse` and `noise` methods. It also holds the random stream
  that `noise` consumes.

Floats are exact `real`s. Facts of the code that the model keeps:

- The quantisation truncates toward zero: `(arr * AMPLITUDE_SCALE).astype(np.int16)`
  (chipnumpy/synthesizer.py:149).
- An empty cycle makes `_to_bytes` loop for ever when the buffer is not empty, because
  `i` grows by the cycle length on each pass (chipnumpy/synthesizer.py:152-157).
- The period is `int(FRAMERATE / frequency)` (chipnumpy/synthesizer.py:251, :235). A
  frequency above 44100 Hz gives a period of 0 and an empty cycle; the triangle then
  divides by a half-period of 0 and raises ZeroDivisionError.
- The duty cycle goes straight into `int(duty_cycle * period / 100)`
  (chipnumpy/synthesizer.py:222), so any integer is accepted. Its default is 50
  (chipnumpy/synthesizer.py:73, :210), and both `Pulse` members carry that default.
- Notes are given as frequencies in Hz; the file has no note names.

## Model

| member | source | states |
|---|---|---|
| `Numerics.Trunc` | chipnumpy/synthesizer.py:251 | `int()` of a float: for x >= 0 the result r has r <= x < r + 1; for x < 0 it has r - 1 < x <= r |
| `Numerics.FloorMod` | chipnumpy/synthesizer.py:193 | float `%` with a positive divisor lands in [0, p), and x - (x % p) is a whole multiple of p |
| `Numerics.FloorModOfIndex` | chipnumpy/synthesizer.py:207 | `arr % period` leaves every index of the period unchanged |
| `Numerics.TruncMonotone` | chipnumpy/synthesizer.py:222 | truncation toward zero is monotone |
| `Bytes.LE16` | chipnumpy/synthesizer.py:13-25 | `pack('<H', v)` for v in [0, 65536): 2 bytes, least significant first; its meaning is fixed by both round trips below |
| `Bytes.LE16RoundTrip` | chipnumpy/synthesizer.py:13 | decoding a packed `<H` field gives back the value |
| `Bytes.LE16OfFromLE16` | chipnumpy/synthesizer.py:13 | every 2 bytes are the `<H` packing of the value they decode to |
| `Bytes.LE32` | chipnumpy/synthesizer.py:110-112 | `pack('<I', v)` for v in [0, 2^32): 4 bytes, least significant first; its meaning is fixed by both round trips below |
| `Bytes.LE32RoundTrip` | chipnumpy/synthesizer.py:110 | decoding a packed `<I` field gives back the value |
| `Bytes.LE32OfFromLE32` | chipnumpy/synthesizer.py:112 | every 4 bytes are the `<I` packing of the value they decode to |
| `Bytes.EncodeInt16` | chipnumpy/synthesizer.py:158 | an int16 sample takes 2 bytes, and the top bit of the high byte is set exactly for negative samples |
| `Bytes.DecodeInt16` | chipnumpy/synthesizer.py:158 | 2 bytes read back as a value in [-32768, 32767] that is negative exactly when the high byte's top bit is set |
| `Bytes.Int16RoundTrip` | chipnumpy/synthesizer.py:158 | decoding an encoded int16 sample gives back every value in [-32768, 32767] |
| `Bytes.EncodeOfDecodeInt16` | chipnumpy/synthesizer.py:158 | every 2 bytes are the encoding of the sample they decode to |
| `Waveforms.Clamp` | chipnumpy/synthesizer.py:252 | the clamped amplitude always lies in [0, 1] |
| `Waveforms.ClampIdempotent` | chipnumpy/synthesizer.py:252 | clamping twice equals clamping once |
| `Waveforms.ClampIsNearest` | chipnumpy/synthesizer.py:252 | the clamp returns the point of [0, 1] nearest the requested amplitude, so 0 below and 1 above |
| `Waveforms.Period` | chipnumpy/synthesizer.py:251 | the period is 44100 / f truncated toward zero: for f > 0 it is non-negative with period <= 44100/f < period + 1, for f < 0 it is non-positive with period - 1 < 44100/f <= period |
| `Waveforms.Start` | chipnumpy/synthesizer.py:241-252 | frequency 0 raises ZeroDivisionError; otherwise the result holds `int(44100/f)`, the clamped amplitude and the indices 0..period-1, empty for a negative period |
| `Waveforms.PeriodBracket` | chipnumpy/synthesizer.py:251 | for f > 0: period * f <= 44100 < (period + 1) * f |
| `Waveforms.PeriodZeroIff` | chipnumpy/synthesizer.py:251 | for f > 0 the period is 0 exactly when f > 44100 |
| `Waveforms.StartArrayIsIndices` | chipnumpy/synthesizer.py:252 | for f > 0 the index array has exactly `period` entries |
| `Waveforms.Threshold` | chipnumpy/synthesizer.py:222 | the threshold is duty * period / 100 truncated toward zero: 100 * threshold <= duty * period < 100 * threshold + 100 when that product is non-negative, mirrored when it is negative |
| `Waveforms.Pulse` | chipnumpy/synthesizer.py:210-223 | frequency 0 raises ZeroDivisionError, and nothing else raises; otherwise the cycle has one sample per index of the period; the duty cycle defaults to 50 |
| `Waveforms.ThresholdWithinPeriod` | chipnumpy/synthesizer.py:222 | for a duty cycle in [0, 100] the threshold `int(duty*period/100)` lies in [0, period] |
| `Waveforms.PulseShape` | chipnumpy/synthesizer.py:221-223 | for every integer duty cycle, samples before the threshold are +amplitude and the rest are -amplitude, with the amplitude clamped; a duty cycle in [0, 100] puts the threshold inside the period |
| `Waveforms.PulseAt100Hz` | chipnumpy/synthesizer.py:210-223 | the default duty cycle at 100 Hz gives 441 samples; the first 220 are +1 and the rest -1 |
| `Waveforms.Sawtooth` | chipnumpy/synthesizer.py:206-207 | frequency 0 raises ZeroDivisionError, and nothing else raises; otherwise the cycle has one sample per index of the period |
| `Waveforms.SawtoothIsRamp` | chipnumpy/synthesizer.py:207 | the source's `a * (f * (x / FRAMERATE) * 2 - 1)` equals the textbook ramp a * (2 f x / 44100 - 1) |
| `Waveforms.SawtoothSample` | chipnumpy/synthesizer.py:207 | inside the period, sample t is the ramp a * (2 f t / 44100 - 1) |
| `Waveforms.SawtoothStartsLow` | chipnumpy/synthesizer.py:207 | sample 0 is -amplitude |
| `Waveforms.SawtoothBounds` | chipnumpy/synthesizer.py:206-207 | every sample lies in [-a, a], and below a when a > 0, because f * period <= 44100 |
| `Waveforms.SawtoothIncreasing` | chipnumpy/synthesizer.py:207 | for a > 0 the samples strictly increase with t |
| `Waveforms.Triangle` | chipnumpy/synthesizer.py:191-193 | frequency 0 or period 0 raises ZeroDivisionError; otherwise one sample per index |
| `Waveforms.TriangleSample` | chipnumpy/synthesizer.py:193 | inside the period, sample t is (a/h) * (h - 2\|t - h\| - 1) with h = period/2 |
| `Waveforms.TriangleIsShiftedTextbook` | chipnumpy/synthesizer.py:192-193 | the cycle equals the textbook triangle (-a at 0, a at h) shifted down by a/h |
| `Waveforms.TriangleFirstSample` | chipnumpy/synthesizer.py:193 | sample 0 is -a * (1 + 1/h), below -a whenever a > 0 |
| `Waveforms.TriangleBounds` | chipnumpy/synthesizer.py:193 | every sample lies in [-a - a/h, a - a/h] |
| `Waveforms.Sine` | chipnumpy/synthesizer.py:171-178 | frequency 0 raises ZeroDivisionError, and nothing else raises; otherwise one sample per index of the period |
| `Waveforms.SineWithinAmplitude` | chipnumpy/synthesizer.py:175-177 | with a sine bounded by 1, every sample lies in [-a, a] for the clamped a |
| `Waveforms.AmplitudeOnlyThroughClamp` | chipnumpy/synthesizer.py:252 | two amplitudes with the same clamp give identical pulse, sawtooth, triangle and sine cycles |
| `Pcm.Quantise` | chipnumpy/synthesizer.py:149 | the int16 cast truncates x * 32767 toward zero: r <= x * 32767 < r + 1 for x >= 0, r - 1 < x * 32767 <= r for x < 0 |
| `Pcm.SampleCount` | chipnumpy/synthesizer.py:147 | the buffer size is 44100 * length truncated toward zero: non-negative with N <= 44100 * length < N + 1 for length >= 0, non-positive with N - 1 < 44100 * length <= N for length < 0, so only lengths of -1/44100 or below give N < 0 and raise |
| `Pcm.QuantiseInRange` | chipnumpy/synthesizer.py:149 | a value in [-1, 1] times 32767, truncated, lies in [-32767, 32767] |
| `Pcm.UnitCycleQuantisable` | chipnumpy/synthesizer.py:149 | a cycle inside [-1, 1] fits the int16 cast |
| `Pcm.QuantiseAll` | chipnumpy/synthesizer.py:149 | the quantised cycle has the cycle's length, and all its values are int16 |
| `Pcm.Tile` | chipnumpy/synthesizer.py:150-157 | whole copies then a cut-short copy give exactly n samples, int16 when the cycle's samples are |
| `Pcm.TileAt` | chipnumpy/synthesizer.py:152-157 | sample k of the tiling is cycle sample k mod \|cycle\|, the cut-short copy included |
| `Pcm.Serialise` | chipnumpy/synthesizer.py:158 | `tobytes()` of n samples has 2n bytes |
| `Pcm.SerialiseAt` | chipnumpy/synthesizer.py:158 | bytes 2k and 2k+1 encode sample k |
| `Pcm.SerialiseRoundTrip` | chipnumpy/synthesizer.py:158 | deserialising the bytes gives back every sample |
| `Pcm.SerialiseTiled` | chipnumpy/synthesizer.py:158 | serialising a buffer that holds the quantised cycle at every k mod \|cycle\| gives 2 bytes per sample, and pair k decodes to that cycle sample |
| `Pcm.Expected` | chipnumpy/synthesizer.py:147-158 | the serialised tiling of n samples has 2n bytes |
| `Pcm.ToBytes` | chipnumpy/synthesizer.py:138-158 | a negative sample count raises; otherwise the output has 2N bytes, and sample k decodes to the quantised cycle sample k mod \|cycle\| |
| `Pcm.OutputIsTiledSerialisation` | chipnumpy/synthesizer.py:150-158 | the length and the per-sample decoding fix the bytes uniquely, as the serialised tiling of the quantised cycle |
| `Pcm.EmptyCycleNeverExits` | chipnumpy/synthesizer.py:152-157 | `IndexAfter`, the value of `i` after any number of passes of the loop as written, stays 0 for an empty cycle, so the guard `i < N` holds for ever when N > 0 |
| `Pcm.NonEmptyCycleExits` | chipnumpy/synthesizer.py:152-157 | with a non-empty cycle, `i` is passes * \|cycle\|, and the loop leaves after exactly ceil(N / \|cycle\|) passes |
| `Wav.FixedString` | chipnumpy/synthesizer.py:13 | a `4s`/`8s` field is the string cut or zero-padded to its width |
| `Wav.Pack` | chipnumpy/synthesizer.py:13-25 | packing succeeds exactly when every number fits its u16/u32 slot, and then yields 44 bytes; otherwise struct.error |
| `Wav.AsWrittenHeaderRaises` | chipnumpy/synthesizer.py:21-22 | as written the block align is 88200, which fails the `H` slot, so packing HEADER raises struct.error |
| `Wav.BlockAlignIsTheOnlyFault` | chipnumpy/synthesizer.py:13-25 | the header packs exactly when the block align fits 16 bits |
| `Wav.PackedLayout` | chipnumpy/synthesizer.py:13-25 | unpacking a packed header gives back every argument: the text fields at their fixed widths, the numbers little-endian at their offsets |
| `Wav.Template` | chipnumpy/synthesizer.py:13-25 | the corrected HEADER template is 44 bytes |
| `Wav.ToWav` | chipnumpy/synthesizer.py:99-113 | struct.error exactly when \|data\| + 36 needs more than 32 bits; otherwise the spliced template plus data equals a freshly packed header with sizes \|data\|+36 and \|data\|, plus data |
| `Wav.WrittenTemplateIsPacked` | chipnumpy/synthesizer.py:108-112 | writing both length fields into the template gives exactly the header packed with those lengths |
| `Wav.ToWavLayout` | chipnumpy/synthesizer.py:108-113 | output length 44 + \|data\|; "RIFF", LE32(\|data\|+36), "WAVEfmt ", 16, 1, 1, 44100, 88200, 2, 16, "data", LE32(\|data\|) at their offsets; bytes 44.. are the data |
| `Wav.SetSlice` | chipnumpy/synthesizer.py:110-112 | slice assignment raises TypeError exactly on an immutable `bytes`; on a bytearray the result is still a bytearray of the same length whose bytes lo..hi are v and whose other bytes are unchanged |
| `Wav.ToWavAsWritten` | chipnumpy/synthesizer.py:99-113 | as written: struct.error when \|data\| + 36 needs more than 32 bits; otherwise TypeError exactly on an immutable HEADER; on a bytearray the new HEADER has LE32(\|data\|+36) at 4..8 and LE32(\|data\|) at 40..44, keeps its other bytes, and the output is that HEADER followed by the data |
| `Wav.ImmutableHeaderRaises` | chipnumpy/synthesizer.py:110-113 | as written, `to_wav` on the `bytes` HEADER raises TypeError for every payload whose size packs |
| `Wav.MutableHeaderMatchesToWav` | chipnumpy/synthesizer.py:108-113 | on a bytearray HEADER with whatever lengths an earlier call left, `to_wav` returns what the fresh-header `ToWav` returns, and the fixed fields survive |
| `Synth.Synthesizer.constructor` | chipnumpy/synthesizer.py:27-35 | the generator's stream is fixed at construction, and nothing has been drawn yet |
| `Synth.Synthesizer.Pulse` | chipnumpy/synthesizer.py:73-84 | frequency 0 raises ZeroDivisionError, a negative sample count raises ValueError from `np.zeros`, and otherwise 2N bytes tile the quantised pulse cycle; the duty cycle defaults to 50 |
| `Synth.Synthesizer.Sawtooth` | chipnumpy/synthesizer.py:61-71 | the same for the sawtooth cycle |
| `Synth.Synthesizer.Triangle` | chipnumpy/synthesizer.py:49-59 | ZeroDivisionError exactly for frequency 0 or period 0; ValueError exactly for a non-zero period and a negative sample count; otherwise the same as the others, for cycles that fit the int16 cast |
| `Synth.Synthesizer.Sine` | chipnumpy/synthesizer.py:37-47 | the same for the sine cycle, given a sine bounded by 1 |
| `Synth.ScaledDraws` | chipnumpy/synthesizer.py:236-237 | a noise cycle of `period` draws has `period` samples |
| `Synth.Synthesizer.NoiseCycle` | chipnumpy/synthesizer.py:225-238 | the cycle is the next `period` draws times the unclamped amplitude, and the stream advances by `period`; frequency 0 and a negative period raise without drawing |
| `Synth.Synthesizer.Noise` | chipnumpy/synthesizer.py:86-96 | frequency 0 raises ZeroDivisionError and a negative period raises ValueError, both before any draw; otherwise the draws are consumed even when a negative buffer size then raises ValueError; otherwise 2N bytes, and sample k is draw number start + k mod period, scaled and quantised |
| `Synth.DrawsQuantisable` | chipnumpy/synthesizer.py:236-237 | draws in [-1, 1) times an amplitude in [-1, 1] fit the int16 cast |
| `Synth.ConsecutiveCycles` | chipnumpy/synthesizer.py:236 | two noise cycles in a row read one unbroken stretch of the stream: nothing is skipped or drawn twice |
| `Synth.TriangleFullAmplitudeOverflows` | chipnumpy/synthesizer.py:193 | at 441 Hz and amplitude 1, triangle sample 0 is -1.02 and quantises to -33422, outside int16 |
| `Synth.HighFrequencyNeverTerminates` | chipnumpy/synthesizer.py:251 | at 50000 Hz the period is 0, while one second is 44100 samples, so `_to_bytes` does not end |

## Left out

- `Synthesizer.write` (chipnumpy/synthesizer.py:116-135) resolves a path, creates directories and writes a file. It is pure I/O.
- Float64 rounding. Every formula is evaluated over exact reals. `FRAMERATE * length` and `FRAMERATE / frequency` are exact before truncation.
- The sine and pi of the floating-point library are parameters of `Waveforms.Sine`. Only boundedness by 1 is assumed of the sine.
- NumPy's `RandomState`, and how a seed (or no seed) becomes a stream. The class takes the stream of `uniform(-1, 1)` draws as a constructor parameter. Only "values in [-1, 1)" is assumed of the stream.
- NumPy's float-to-int16 cast of an out-of-range value (chipnumpy/synthesizer.py:149). `Pcm.ToBytes` requires every quantised sample to fit in int16. `Synth.TriangleFullAmplitudeOverflows` shows that a full-amplitude triangle breaks this.
- Synth.Synthesizer.Triangle: requires its cycle to fit the int16 cast, so full-amplitude triangles are outside its contract.
- Synth.Synthesizer.Noise: requires an amplitude in [-1, 1]. This is enough for the int16 cast but is not required by the source. Larger amplitudes, which noise does not clamp, are not modelled.
- Synth.Synthesizer.Noise: requires a sample count of at most 0 when the period is 0. The source loops for ever otherwise (see Findings).
- Synth.Synthesizer.Pulse, Synth.Synthesizer.Sawtooth, Synth.Synthesizer.Triangle and Synth.Synthesizer.Sine: require a positive period or a sample count of at most 0. A period of 0 or below gives an empty cycle, on which the source loops for ever.
- Pcm.ToBytes: requires a non-empty cycle or a non-positive sample count. The source loops for ever otherwise (see Findings).
- Note names: the NOTES and OCTAVES tables in chipnumpy/constants.py:12-35 are used by no code. The repository's `c_scale.py` example script passes a `note=` argument that `sawtooth` does not accept. No resolver is invented.
- The `c_scale.py` example script (pygame playback, `sleep`) and setup.py (packaging) are not part of this model.
- Thread-safety of the class-level HEADER shared between calls. The corrected `Wav.ToWav` builds a fresh header per call.
- `tobytes()` uses the machine's byte order. The model fixes it to little-endian, the byte order WAV requires.

## Findings

| source | as written | input that shows it | evidently intended | confidence | as-written member | corrected member |
|---|---|---|---|---|---|---|
| chipnumpy/synthesizer.py:22 | the block align is `FRAMERATE * NUM_BITS // 8` = 88200, packed into a `'H'` (u16) slot | defining the class: `pack` raises struct.error, so HEADER never exists | NUM_CHANNELS * NUM_BITS / 8 = 2 bytes per frame | high, not executed | `Wav.AsWrittenHeaderRaises` | `Wav.ToWavLayout` |
| chipnumpy/synthesizer.py:110-112 | slice assignment into HEADER, which is an immutable `bytes` | `to_wav(b"")` raises TypeError | a header whose two length fields are set per call | high, not executed | `Wav.ImmutableHeaderRaises` | `Wav.ToWav` |
| chipnumpy/synthesizer.py:152-157 | `i += int16s.shape[0]` adds 0 for an empty cycle | `pulse(50000.0, 1.0, 1.0)`: period 0, N = 44100 | the loop ends, or the empty cycle is refused | high, not executed | `Pcm.EmptyCycleNeverExits` | `Pcm.ToBytes` |
