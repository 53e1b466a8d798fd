/**
 * `_to_bytes`: quantise one float cycle to int16, tile it over a buffer of
 * `int(FRAMERATE * length)` samples, and serialise the buffer as
 * little-endian int16.
 */
module Pcm {
  import opened Config
  import opened Errors
  import opened Numerics
  import opened Bytes

  /** `(x * AMPLITUDE_SCALE).astype(np.int16)` for a value whose product fits: truncation toward zero. */
  function Quantise(x: real): (r: int)
    ensures 0.0 <= x ==> 0 <= r && r as real <= x * AmplitudeScale as real < r as real + 1.0
    ensures x < 0.0 ==> r <= 0 && r as real - 1.0 < x * AmplitudeScale as real <= r as real
  {
    Trunc(x * AmplitudeScale as real)
  }

  /** A value in [-1, 1] quantises into [-32767, 32767], inside the int16 range. */
  lemma QuantiseInRange(x: real)
    requires -1.0 <= x <= 1.0
    ensures -AmplitudeScale <= Quantise(x) <= AmplitudeScale
    ensures IsInt16(Quantise(x))
  {
    TruncMonotone(x * AmplitudeScale as real, AmplitudeScale as real);
    TruncMonotone(-AmplitudeScale as real, x * AmplitudeScale as real);
    TruncOfInt(AmplitudeScale);
    TruncOfInt(-AmplitudeScale);
  }

  /** Every sample of the cycle quantises to a value the int16 cast can hold. */
  predicate Quantisable(cycle: seq<real>)
  {
    forall t :: 0 <= t < |cycle| ==> IsInt16(Quantise(cycle[t]))
  }

  /** A cycle inside [-1, 1] is always quantisable. */
  lemma UnitCycleQuantisable(cycle: seq<real>)
    requires forall t :: 0 <= t < |cycle| ==> -1.0 <= cycle[t] <= 1.0
    ensures Quantisable(cycle)
  {
    forall t | 0 <= t < |cycle|
      ensures IsInt16(Quantise(cycle[t]))
    {
      QuantiseInRange(cycle[t]);
    }
  }

  /** The quantised cycle, `int16s` in `_to_bytes`. */
  function QuantiseAll(cycle: seq<real>): (q: seq<int>)
    requires Quantisable(cycle)
    ensures |q| == |cycle|
    ensures forall t :: 0 <= t < |q| ==> IsInt16(q[t])
  {
    seq(|cycle|, t requires 0 <= t < |cycle| => Quantise(cycle[t]))
  }

  /** `int(FRAMERATE * length)`: the number of samples in the output buffer. */
  function SampleCount(length: real): (r: int)
    ensures 0.0 <= length ==> 0 <= r && r as real <= FrameRate as real * length < r as real + 1.0
    ensures length < 0.0 ==> r <= 0 && r as real - 1.0 < FrameRate as real * length <= r as real
  {
    Trunc(FrameRate as real * length)
  }

  /**
   * The buffer of n samples made by laying copies of the cycle end to end,
   * the last copy cut short where the buffer ends.
   */
  function Tile(cycle: seq<int>, n: nat): (s: seq<int>)
    requires |cycle| > 0 || n == 0
    ensures |s| == n
    ensures (forall t :: 0 <= t < |cycle| ==> IsInt16(cycle[t])) ==> forall k :: 0 <= k < n ==> IsInt16(s[k])
    decreases n
  {
    if n <= |cycle| then cycle[..n] else cycle + Tile(cycle, n - |cycle|)
  }

  /** Sample k of the tiled buffer is sample k mod |cycle| of the cycle, the cut-short copy included. */
  lemma {:induction false} TileAt(cycle: seq<int>, n: nat, k: int)
    requires |cycle| > 0 && 0 <= k < n
    ensures Tile(cycle, n)[k] == cycle[k % |cycle|]
  {
    var m := |cycle|;
    if k < m {
      ModUnique(k, m, 0, k);
    } else {
      var rest := Tile(cycle, n - m);
      assert Tile(cycle, n) == cycle + rest;
      TileAt(cycle, n - m, k - m);
      ModShift(k, m);
    }
  }

  /** Shifting by one whole cycle keeps the remainder. */
  lemma ModShift(k: int, m: int)
    requires m > 0
    ensures (k - m) % m == k % m
  {
    var q, r := (k - m) / m, (k - m) % m;
    assert k - m == q * m + r;
    assert k == (q + 1) * m + r;
    ModUnique(k, m, q + 1, r);
  }

  /** `samples.tobytes()`: each int16 sample as two little-endian two's-complement bytes. */
  function Serialise(samples: seq<int>): (b: seq<byte>)
    requires forall k :: 0 <= k < |samples| ==> IsInt16(samples[k])
    ensures |b| == 2 * |samples|
  {
    if samples == [] then [] else EncodeInt16(samples[0]) + Serialise(samples[1..])
  }

  /** Reads a byte buffer back as int16 samples, two bytes at a time. */
  function Deserialise(b: seq<byte>): (s: seq<int>)
    requires |b| % 2 == 0
    ensures |s| == |b| / 2
    ensures forall k :: 0 <= k < |s| ==> IsInt16(s[k])
  {
    if b == [] then [] else [DecodeInt16(b[..2])] + Deserialise(b[2..])
  }

  /** Bytes 2k and 2k+1 of the serialised buffer encode sample k. */
  lemma {:induction false} SerialiseAt(samples: seq<int>, k: int)
    requires forall j :: 0 <= j < |samples| ==> IsInt16(samples[j])
    requires 0 <= k < |samples|
    ensures Serialise(samples)[2 * k..2 * k + 2] == EncodeInt16(samples[k])
  {
    if k > 0 {
      var rest := Serialise(samples[1..]);
      SerialiseAt(samples[1..], k - 1);
      assert Serialise(samples) == EncodeInt16(samples[0]) + rest;
      SliceOfAppend(EncodeInt16(samples[0]), rest, 2 * k, 2 * k + 2);
    }
  }

  /** A slice that lies wholly in the second half of a concatenation. */
  lemma SliceOfAppend(a: seq<byte>, b: seq<byte>, i: int, j: int)
    requires |a| <= i <= j <= |a| + |b|
    ensures (a + b)[i..j] == b[i - |a|..j - |a|]
  {
    forall t | 0 <= t < j - i
      ensures (a + b)[i..j][t] == b[i - |a|..j - |a|][t]
    {
      assert (a + b)[i + t] == b[i + t - |a|];
    }
  }

  /** Decoding the serialised buffer gives back every sample. */
  lemma {:induction false} SerialiseRoundTrip(samples: seq<int>)
    requires forall k :: 0 <= k < |samples| ==> IsInt16(samples[k])
    ensures Deserialise(Serialise(samples)) == samples
  {
    if samples != [] {
      var b := Serialise(samples);
      assert b[..2] == EncodeInt16(samples[0]);
      assert b[2..] == Serialise(samples[1..]);
      Int16RoundTrip(samples[0]);
      SerialiseRoundTrip(samples[1..]);
      assert samples == [samples[0]] + samples[1..];
    }
  }

  /** What `_to_bytes` returns for n >= 0 samples: the quantised cycle tiled over n samples, serialised. */
  function Expected(cycle: seq<real>, n: nat): (b: seq<byte>)
    requires Quantisable(cycle)
    requires |cycle| > 0 || n == 0
    ensures |b| == 2 * n
  {
    Serialise(Tile(QuantiseAll(cycle), n))
  }

  /**
   * The length and the decoded samples that `ToBytes` promises pin its output down:
   * they are met by exactly one byte buffer, the serialised tiling of the quantised cycle.
   */
  lemma OutputIsTiledSerialisation(b: seq<byte>, cycle: seq<real>, n: nat)
    requires Quantisable(cycle) && |cycle| > 0
    requires |b| == 2 * n
    requires forall k :: 0 <= k < n ==> DecodeInt16(b[2 * k..2 * k + 2]) == Quantise(cycle[k % |cycle|])
    ensures b == Expected(cycle, n)
  {
    var q := QuantiseAll(cycle);
    var e := Expected(cycle, n);
    forall k | 0 <= k < n
      ensures b[2 * k..2 * k + 2] == e[2 * k..2 * k + 2]
    {
      TileAt(q, n, k);
      SerialiseAt(Tile(q, n), k);
      EncodeOfDecodeInt16(b[2 * k..2 * k + 2]);
    }
    PairwiseEqual(b, e, n);
  }

  /** Two buffers of n byte pairs that agree pair by pair are equal. */
  lemma PairwiseEqual(a: seq<byte>, b: seq<byte>, n: nat)
    requires |a| == |b| == 2 * n
    requires forall k :: 0 <= k < n ==> a[2 * k..2 * k + 2] == b[2 * k..2 * k + 2]
    ensures a == b
  {
    forall i | 0 <= i < 2 * n
      ensures a[i] == b[i]
    {
      var k := i / 2;
      assert a[2 * k..2 * k + 2][i - 2 * k] == a[i];
      assert b[2 * k..2 * k + 2][i - 2 * k] == b[i];
    }
  }

  /** Inside the block of whole copies that starts at c * m, k mod m is the offset into the block. */
  lemma ModInBlock(k: int, c: nat, m: int)
    requires m > 0 && c * m <= k < c * m + m
    ensures k % m == k - c * m
  {
    ModUnique(k, m, c, k - c * m);
  }

  /** Euclidean division leaves one remainder: k = q * m + r with 0 <= r < m fixes r. */
  lemma ModUnique(k: int, m: int, q: int, r: int)
    requires m > 0 && k == q * m + r && 0 <= r < m
    ensures k % m == r
  {
    var q2, r2 := k / m, k % m;
    assert k == q2 * m + r2;
    assert (q - q2) * m == r2 - r;
    SmallMultiple(q - q2, m);
  }

  lemma SmallMultiple(d: int, m: int)
    requires m > 0 && -m < d * m < m
    ensures d == 0
  {
  }

  /** `tobytes()` of a buffer that holds the quantised cycle at every position k mod |cycle|. */
  function SerialiseTiled(buffer: seq<int>, arr: seq<real>): (bytes: seq<byte>)
    requires Quantisable(arr) && (|arr| > 0 || |buffer| == 0)
    requires forall k :: 0 <= k < |buffer| ==> buffer[k] == QuantiseAll(arr)[k % |arr|]
    ensures |bytes| == 2 * |buffer|
    ensures forall k :: 0 <= k < |buffer| ==>
      DecodeInt16(bytes[2 * k..2 * k + 2]) == Quantise(arr[k % |arr|])
  {
    var q := QuantiseAll(arr);
    assert forall k :: 0 <= k < |buffer| ==> IsInt16(buffer[k]) by {
      forall k | 0 <= k < |buffer|
        ensures IsInt16(buffer[k])
      {
        assert buffer[k] == q[k % |arr|];
      }
    }
    var bytes := Serialise(buffer);
    assert forall k :: 0 <= k < |buffer| ==>
      DecodeInt16(bytes[2 * k..2 * k + 2]) == Quantise(arr[k % |arr|]) by {
      forall k | 0 <= k < |buffer|
        ensures DecodeInt16(bytes[2 * k..2 * k + 2]) == Quantise(arr[k % |arr|])
      {
        SerialiseAt(buffer, k);
        Int16RoundTrip(buffer[k]);
      }
    }
    bytes
  }

  /**
   * `_to_bytes`. The loop fills a zeroed buffer by slice assignment, one copy of
   * the quantised cycle per pass, cutting the last copy short. It ends only when
   * the cycle is non-empty or the buffer is empty.
   */
  method ToBytes(arr: seq<real>, length: real) returns (r: Result<seq<byte>>)
    requires Quantisable(arr)
    requires |arr| > 0 || SampleCount(length) <= 0
    ensures r.Err? <==> SampleCount(length) < 0
    ensures r.Err? ==> r.error == NegativeDimensions
    ensures r.Ok? ==> |r.value| == 2 * SampleCount(length)
    ensures r.Ok? ==> forall k :: 0 <= k < SampleCount(length) ==>
      DecodeInt16(r.value[2 * k..2 * k + 2]) == Quantise(arr[k % |arr|])
  {
    var n := SampleCount(length);
    if n < 0 {
      return Err(NegativeDimensions);
    }
    var samples := new int[n](_ => 0);
    var int16s := QuantiseAll(arr);
    var m := |int16s|;
    var i := 0;
    ghost var passes: nat := 0;
    while i < n
      invariant 0 <= i && i == passes * m
      invariant forall k :: 0 <= k < n && k < i ==> samples[k] == int16s[k % m]
      invariant forall k :: i <= k < n ==> samples[k] == 0
      decreases n - i
    {
      if i + m > n {
        forall k | i <= k < n {
          samples[k] := int16s[k - i];
        }
      } else {
        forall k | i <= k < i + m {
          samples[k] := int16s[k - i];
        }
      }
      forall k | i <= k < n && k < i + m
        ensures k % m == k - i
      {
        ModInBlock(k, passes, m);
      }
      i := i + m;
      passes := passes + 1;
    }
    var buffer := samples[..];
    assert forall k :: 0 <= k < n ==> buffer[k] == int16s[k % m];
    var bytes := SerialiseTiled(buffer, arr);
    return Ok(bytes);
  }

  // ---------------------------------------------------------------- the loop as written

  /** The value of `i` in `_to_bytes` after `passes` passes of its loop: each pass adds the cycle length. */
  function IndexAfter(cycleLength: nat, passes: nat): nat
  {
    if passes == 0 then 0 else IndexAfter(cycleLength, passes - 1) + cycleLength
  }

  /** About `IndexAfter`, the loop of `_to_bytes` as written: with an empty cycle `i` never moves, so the guard `i < n` holds after any number of passes. */
  lemma {:induction false} EmptyCycleNeverExits(n: int, passes: nat)
    requires n > 0
    ensures IndexAfter(0, passes) == 0 < n
  {
    if passes > 0 {
      EmptyCycleNeverExits(n, passes - 1);
    }
  }

  /** With a non-empty cycle the loop has left after ceil(n / |cycle|) passes and not before. */
  lemma {:induction false} NonEmptyCycleExits(cycleLength: nat, n: nat, passes: nat)
    requires cycleLength > 0
    ensures IndexAfter(cycleLength, passes) == passes * cycleLength
    ensures IndexAfter(cycleLength, passes) >= n <==> passes >= (n + cycleLength - 1) / cycleLength
  {
    if passes > 0 {
      NonEmptyCycleExits(cycleLength, n, passes - 1);
    }
    CeilDiv(n, cycleLength, passes);
  }

  lemma CeilDiv(n: nat, m: nat, c: nat)
    requires m > 0
    ensures c * m >= n <==> c >= (n + m - 1) / m
  {
    var q, r := (n + m - 1) / m, (n + m - 1) % m;
    assert n + m - 1 == q * m + r && 0 <= r < m;
    if c >= q {
      MulMonotone(q, c, m);
    } else {
      MulMonotone(c, q - 1, m);
      assert (q - 1) * m == q * m - m;
    }
  }

  lemma MulMonotone(a: int, b: int, m: nat)
    requires a <= b
    ensures a * m <= b * m
  {
    assert b * m - a * m == (b - a) * m;
  }
}
