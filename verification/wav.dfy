/**
 * The RIFF/WAVE header (`Synthesizer.HEADER`) and `to_wav`: a 44-byte canonical
 * PCM header in front of the sample bytes, as in Microsoft's RIFF WAVE format.
 */
module Wav {
  import opened Config
  import opened Errors
  import opened Bytes

  const HeaderSize: int := 44

  /** ASCII text as bytes, the `b"..."` literals of the header. */
  function Ascii(s: string): (b: seq<byte>)
    requires forall i :: 0 <= i < |s| ==> s[i] as int < 256
    ensures |b| == |s|
  {
    seq(|s|, i requires 0 <= i < |s| => s[i] as int as byte)
  }

  /** The `b"RIFF"`, `b"WAVEfmt "` and `b"data"` literals of the header, as bytes. */
  const RiffTag: seq<byte> := [0x52, 0x49, 0x46, 0x46]
  const WaveFmtTag: seq<byte> := [0x57, 0x41, 0x56, 0x45, 0x66, 0x6d, 0x74, 0x20]
  const DataTag: seq<byte> := [0x64, 0x61, 0x74, 0x61]

  /** The three tags spell their ASCII text. */
  lemma TagsAreAscii()
    ensures RiffTag == Ascii("RIFF")
    ensures WaveFmtTag == Ascii("WAVEfmt ")
    ensures DataTag == Ascii("data")
  {
  }

  /** Each tag fills its `4s` or `8s` slot exactly, so packing leaves it unchanged. */
  lemma TagsFit()
    ensures FixedString(RiffTag, 4) == RiffTag
    ensures FixedString(WaveFmtTag, 8) == WaveFmtTag
    ensures FixedString(DataTag, 4) == DataTag
  {
  }

  /** struct's `Ns` code: the bytes cut to width n or padded with zero bytes. */
  function FixedString(s: seq<byte>, n: nat): (r: seq<byte>)
    ensures |r| == n
    ensures forall i :: 0 <= i < n ==> r[i] == if i < |s| then s[i] else 0
  {
    if |s| >= n then s[..n] else s + seq(n - |s|, _ => 0)
  }

  /** The twelve arguments of `pack('<4sI8sIHHIIHH4sI', ...)`, in order. */
  datatype HeaderFields = HeaderFields(
    riff: seq<byte>, riffSize: int, waveFmt: seq<byte>, fmtSize: int,
    formatTag: int, channels: int, sampleRate: int, byteRate: int,
    blockAlign: int, bitsPerSample: int, dataTag: seq<byte>, dataSize: int)

  /** Every numeric argument fits its `I` (u32) or `H` (u16) slot. */
  predicate Packable(h: HeaderFields)
  {
    IsUInt32(h.riffSize) && IsUInt32(h.fmtSize) && IsUInt16(h.formatTag) && IsUInt16(h.channels) &&
    IsUInt32(h.sampleRate) && IsUInt32(h.byteRate) && IsUInt16(h.blockAlign) && IsUInt16(h.bitsPerSample) &&
    IsUInt32(h.dataSize)
  }

  /** The packed bytes, field after field, little-endian. */
  function Packed(h: HeaderFields): (b: seq<byte>)
    requires Packable(h)
    ensures |b| == HeaderSize
  {
    FixedString(h.riff, 4) + LE32(h.riffSize) + Body(h) + LE32(h.dataSize)
  }

  /** The 32 bytes between the two length fields: "WAVEfmt ", the format chunk and the "data" tag. */
  function Body(h: HeaderFields): (b: seq<byte>)
    requires Packable(h)
    ensures |b| == 32
  {
    FixedString(h.waveFmt, 8) + LE32(h.fmtSize) +
    LE16(h.formatTag) + LE16(h.channels) + LE32(h.sampleRate) + LE32(h.byteRate) +
    LE16(h.blockAlign) + LE16(h.bitsPerSample) + FixedString(h.dataTag, 4)
  }

  /** `pack('<4sI8sIHHIIHH4sI', ...)`: struct.error when a number does not fit its slot. */
  function Pack(h: HeaderFields): (r: Result<seq<byte>>)
    ensures r.Ok? <==> Packable(h)
    ensures r.Err? ==> r.error == StructError
    ensures r.Ok? ==> |r.value| == HeaderSize
  {
    if Packable(h) then Ok(Packed(h)) else Err(StructError)
  }

  /** The arguments the header is packed from, with the block align left open. */
  function HeaderArguments(blockAlign: int, riffSize: int, dataSize: int): HeaderFields
  {
    HeaderFields(
      RiffTag, riffSize, WaveFmtTag, NumBits,
      1, NumChannels, FrameRate, FrameRate * NumChannels * NumBits / 8,
      blockAlign, NumBits, DataTag, dataSize)
  }

  /** The block align chipnumpy passes: FRAMERATE * NUM_BITS // 8. */
  const AsWrittenBlockAlign: int := FrameRate * NumBits / 8
  /** The block align of a PCM stream: bytes per sample frame, NUM_CHANNELS * NUM_BITS / 8. */
  const BlockAlign: int := NumChannels * NumBits / 8

  /** As written, HEADER cannot be packed: 88200 does not fit the u16 block-align slot. */
  lemma AsWrittenHeaderRaises()
    ensures AsWrittenBlockAlign == 88200 && !IsUInt16(AsWrittenBlockAlign)
    ensures Pack(HeaderArguments(AsWrittenBlockAlign, 0, 0)) == Err(StructError)
  {
  }

  /** The block align is the only argument that breaks the pack: any value that fits gives a header. */
  lemma BlockAlignIsTheOnlyFault(blockAlign: int)
    ensures Pack(HeaderArguments(blockAlign, 0, 0)).Ok? <==> IsUInt16(blockAlign)
  {
  }

  /** The header template: the corrected HEADER, both length fields 0. */
  function Template(): (h: seq<byte>)
    ensures |h| == HeaderSize
  {
    Packed(HeaderArguments(BlockAlign, 0, 0))
  }

  /**
   * `to_wav`, with a fresh header per call: the template with the RIFF size
   * written over bytes 4-7 and the data size over the last four bytes, then the data.
   */
  function ToWav(data: seq<byte>): (r: Result<seq<byte>>)
    ensures r.Ok? <==> IsUInt32(|data| + 36)
    ensures r.Err? ==> r.error == StructError
    ensures r.Ok? ==> r.value == Packed(HeaderArguments(BlockAlign, |data| + 36, |data|)) + data
  {
    var length := |data|;
    if !IsUInt32(length + 36) then Err(StructError)
    else
      var template := Template();
      var header := template[..4] + LE32(length + 36) + template[8..];
      var header := header[..HeaderSize - 4] + LE32(length);
      WrittenTemplateIsPacked(length);
      Ok(header + data)
  }

  /** The fields of a packed header sit at their fixed offsets. */
  lemma PackedAt(h: HeaderFields)
    requires Packable(h)
    ensures Packed(h)[..4] == FixedString(h.riff, 4)
    ensures Packed(h)[4..8] == LE32(h.riffSize)
    ensures Packed(h)[8..40] == Body(h)
    ensures Packed(h)[40..] == LE32(h.dataSize)
  {
    var p, x, b, y := FixedString(h.riff, 4), LE32(h.riffSize), Body(h), LE32(h.dataSize);
    assert Packed(h) == p + x + b + y;
  }

  /** Only the two length fields of the header depend on the data. */
  lemma BodyIgnoresSizes(blockAlign: int, riffSize1: int, dataSize1: int, riffSize2: int, dataSize2: int)
    requires Packable(HeaderArguments(blockAlign, riffSize1, dataSize1))
    requires Packable(HeaderArguments(blockAlign, riffSize2, dataSize2))
    ensures Body(HeaderArguments(blockAlign, riffSize1, dataSize1)) == Body(HeaderArguments(blockAlign, riffSize2, dataSize2))
  {
  }

  /** Overwriting bytes 4-7 and the last four bytes of a 44-byte header keeps the rest. */
  lemma Splice(t: seq<byte>, x: seq<byte>, y: seq<byte>)
    requires |t| == HeaderSize && |x| == 4 && |y| == 4
    ensures (t[..4] + x + t[8..])[..HeaderSize - 4] + y == t[..4] + x + t[8..40] + y
  {
    assert (t[..4] + x + t[8..])[..HeaderSize - 4] == t[..4] + x + t[8..40];
  }

  /** The template with both length fields written is the header packed with those lengths. */
  lemma WrittenTemplateIsPacked(length: nat)
    requires IsUInt32(length + 36)
    ensures var t := Template();
      (t[..4] + LE32(length + 36) + t[8..])[..HeaderSize - 4] + LE32(length)
        == Packed(HeaderArguments(BlockAlign, length + 36, length))
  {
    var h0 := HeaderArguments(BlockAlign, 0, 0);
    var h := HeaderArguments(BlockAlign, length + 36, length);
    Splice(Template(), LE32(length + 36), LE32(length));
    PackedAt(h0);
    PackedAt(h);
    BodyIgnoresSizes(BlockAlign, 0, 0, length + 36, length);
    assert Packed(h) == Packed(h)[..4] + Packed(h)[4..8] + Packed(h)[8..40] + Packed(h)[40..];
  }

  /** Each field of the body sits at its fixed offset. */
  lemma BodyAt(h: HeaderFields)
    requires Packable(h)
    ensures Body(h)[..8] == FixedString(h.waveFmt, 8)
    ensures Body(h)[8..12] == LE32(h.fmtSize)
    ensures Body(h)[12..14] == LE16(h.formatTag)
    ensures Body(h)[14..16] == LE16(h.channels)
    ensures Body(h)[16..20] == LE32(h.sampleRate)
    ensures Body(h)[20..24] == LE32(h.byteRate)
    ensures Body(h)[24..26] == LE16(h.blockAlign)
    ensures Body(h)[26..28] == LE16(h.bitsPerSample)
    ensures Body(h)[28..] == FixedString(h.dataTag, 4)
  {
    var b := Body(h);
    var p0 := FixedString(h.waveFmt, 8) + LE32(h.fmtSize);
    var p1 := p0 + LE16(h.formatTag) + LE16(h.channels);
    var p2 := p1 + LE32(h.sampleRate) + LE32(h.byteRate);
    var p3 := p2 + LE16(h.blockAlign) + LE16(h.bitsPerSample);
    assert b == p3 + FixedString(h.dataTag, 4);
    assert b[..28] == p3;
    assert p3[..24] == p2 && p2[..16] == p1 && p1[..12] == p0;
  }

  /** `s[i..j]` read through a window `w` that starts at offset `o` of `s`. */
  lemma SliceOfSlice(s: seq<byte>, w: seq<byte>, o: int, i: int, j: int)
    requires 0 <= o && o + |w| <= |s| && s[o..o + |w|] == w
    requires 0 <= i <= j <= |w|
    ensures s[o + i..o + j] == w[i..j]
  {
    forall k | 0 <= k < j - i
      ensures s[o + i..o + j][k] == w[i..j][k]
    {
      assert s[o + i + k] == s[o..o + |w|][i + k];
    }
  }

  /**
   * Unpacking a packed header gives back every argument: the text fields as their
   * fixed-width bytes, the numbers little-endian.
   */
  lemma PackedLayout(h: HeaderFields)
    requires Packable(h)
    ensures var p := Packed(h);
      p[..4] == FixedString(h.riff, 4) &&
      FromLE32(p[4..8]) == h.riffSize &&
      p[8..16] == FixedString(h.waveFmt, 8) &&
      FromLE32(p[16..20]) == h.fmtSize &&
      FromLE16(p[20..22]) == h.formatTag &&
      FromLE16(p[22..24]) == h.channels &&
      FromLE32(p[24..28]) == h.sampleRate &&
      FromLE32(p[28..32]) == h.byteRate &&
      FromLE16(p[32..34]) == h.blockAlign &&
      FromLE16(p[34..36]) == h.bitsPerSample &&
      p[36..40] == FixedString(h.dataTag, 4) &&
      FromLE32(p[40..44]) == h.dataSize
  {
    var p := Packed(h);
    PackedAt(h);
    BodyAt(h);
    var b := Body(h);
    SliceOfSlice(p, b, 8, 0, 8);
    SliceOfSlice(p, b, 8, 8, 12);
    SliceOfSlice(p, b, 8, 12, 14);
    SliceOfSlice(p, b, 8, 14, 16);
    SliceOfSlice(p, b, 8, 16, 20);
    SliceOfSlice(p, b, 8, 20, 24);
    SliceOfSlice(p, b, 8, 24, 26);
    SliceOfSlice(p, b, 8, 26, 28);
    SliceOfSlice(p, b, 8, 28, 32);
    LE32RoundTrip(h.riffSize);
    LE32RoundTrip(h.fmtSize);
    LE16RoundTrip(h.formatTag);
    LE16RoundTrip(h.channels);
    LE32RoundTrip(h.sampleRate);
    LE32RoundTrip(h.byteRate);
    LE16RoundTrip(h.blockAlign);
    LE16RoundTrip(h.bitsPerSample);
    LE32RoundTrip(h.dataSize);
  }

  /** A stream that starts with a packed header carries every field of it at the same offset. */
  lemma FieldsAfterPrefix(w: seq<byte>, h: HeaderFields)
    requires Packable(h) && |w| >= HeaderSize && w[..HeaderSize] == Packed(h)
    ensures w[0..4] == FixedString(h.riff, 4)
    ensures FromLE32(w[4..8]) == h.riffSize
    ensures w[8..16] == FixedString(h.waveFmt, 8)
    ensures FromLE32(w[16..20]) == h.fmtSize
    ensures FromLE16(w[20..22]) == h.formatTag
    ensures FromLE16(w[22..24]) == h.channels
    ensures FromLE32(w[24..28]) == h.sampleRate
    ensures FromLE32(w[28..32]) == h.byteRate
    ensures FromLE16(w[32..34]) == h.blockAlign
    ensures FromLE16(w[34..36]) == h.bitsPerSample
    ensures w[36..40] == FixedString(h.dataTag, 4)
    ensures FromLE32(w[40..44]) == h.dataSize
  {
    var p := Packed(h);
    PackedLayout(h);
    SliceOfSlice(w, p, 0, 0, 4);
    SliceOfSlice(w, p, 0, 4, 8);
    SliceOfSlice(w, p, 0, 8, 16);
    SliceOfSlice(w, p, 0, 16, 20);
    SliceOfSlice(w, p, 0, 20, 22);
    SliceOfSlice(w, p, 0, 22, 24);
    SliceOfSlice(w, p, 0, 24, 28);
    SliceOfSlice(w, p, 0, 28, 32);
    SliceOfSlice(w, p, 0, 32, 34);
    SliceOfSlice(w, p, 0, 34, 36);
    SliceOfSlice(w, p, 0, 36, 40);
    SliceOfSlice(w, p, 0, 40, 44);
  }

  /** Byte by byte, the WAV stream has the canonical header layout, then the data unchanged. */
  lemma ToWavLayout(data: seq<byte>)
    requires IsUInt32(|data| + 36)
    ensures ToWav(data).Ok?
    ensures var w := ToWav(data).value;
      |w| == HeaderSize + |data| &&
      w[0..4] == RiffTag &&
      FromLE32(w[4..8]) == |data| + 36 &&
      w[8..16] == WaveFmtTag &&
      FromLE32(w[16..20]) == 16 &&
      FromLE16(w[20..22]) == 1 &&
      FromLE16(w[22..24]) == NumChannels &&
      FromLE32(w[24..28]) == FrameRate &&
      FromLE32(w[28..32]) == 88200 &&
      FromLE16(w[32..34]) == 2 &&
      FromLE16(w[34..36]) == NumBits &&
      w[36..40] == DataTag &&
      FromLE32(w[40..44]) == |data| &&
      w[44..] == data
  {
    var w := ToWav(data).value;
    var h := HeaderArguments(BlockAlign, |data| + 36, |data|);
    assert w[..HeaderSize] == Packed(h);
    FieldsAfterPrefix(w, h);
    TagsFit();
  }

  // ---------------------------------------------------------------- to_wav as written

  /** A Python buffer: `bytes` cannot be assigned into, `bytearray` can. */
  datatype Buffer = Immutable(bytes: seq<byte>) | Mutable(bytes: seq<byte>)

  /** `buf[lo:hi] = v` for a same-length replacement. */
  function SetSlice(buf: Buffer, lo: int, hi: int, v: seq<byte>): (r: Result<Buffer>)
    requires 0 <= lo <= hi <= |buf.bytes| && |v| == hi - lo
    ensures r.Err? <==> buf.Immutable?
    ensures r.Err? ==> r.error == TypeError
    ensures r.Ok? ==> |r.value.bytes| == |buf.bytes|
    ensures r.Ok? ==> r.value.Mutable?
    ensures r.Ok? ==> r.value.bytes[lo..hi] == v
    ensures r.Ok? ==> r.value.bytes[..lo] == buf.bytes[..lo] && r.value.bytes[hi..] == buf.bytes[hi..]
  {
    match buf
    case Immutable(_) => Err(TypeError)
    case Mutable(b) => Ok(Mutable(b[..lo] + v + b[hi..]))
  }

  /**
   * `to_wav` as written: assigns both length fields into the shared class-level
   * HEADER, then returns HEADER + data. The result pairs the new HEADER with the output.
   */
  function ToWavAsWritten(header: Buffer, data: seq<byte>): (r: Result<(Buffer, seq<byte>)>)
    requires |header.bytes| == HeaderSize
    ensures !IsUInt32(|data| + 36) ==> r == Err(StructError)
    ensures IsUInt32(|data| + 36) ==> (r.Err? <==> header.Immutable?)
    ensures r.Err? && IsUInt32(|data| + 36) ==> r.error == TypeError
    ensures r.Ok? ==> |r.value.0.bytes| == HeaderSize && r.value.1 == r.value.0.bytes + data
    ensures r.Ok? ==> r.value.0.bytes[4..8] == LE32(|data| + 36)
    ensures r.Ok? ==> r.value.0.bytes[HeaderSize - 4..] == LE32(|data|)
    ensures r.Ok? ==> r.value.0.bytes[..4] == header.bytes[..4]
    ensures r.Ok? ==> r.value.0.bytes[8..HeaderSize - 4] == header.bytes[8..HeaderSize - 4]
  {
    var length := |data|;
    if !IsUInt32(length + 36) then Err(StructError)
    else match SetSlice(header, 4, 8, LE32(length + 36))
      case Err(e) => Err(e)
      case Ok(h1) =>
        assert h1.bytes[4..8] == LE32(length + 36);
        match SetSlice(h1, HeaderSize - 4, HeaderSize, LE32(length))
        case Err(e) => Err(e)
        case Ok(h2) =>
          assert h2.bytes[4..8] == h1.bytes[4..8];
          assert h2.bytes[8..HeaderSize - 4] == h1.bytes[8..HeaderSize - 4];
          Ok((h2, h2.bytes + data))
  }

  /** On the immutable `bytes` HEADER, every call that gets past the size packing raises TypeError. */
  lemma ImmutableHeaderRaises(header: seq<byte>, data: seq<byte>)
    requires |header| == HeaderSize && IsUInt32(|data| + 36)
    ensures ToWavAsWritten(Immutable(header), data) == Err(TypeError)
  {
  }

  /**
   * Were HEADER a bytearray holding the template's fixed fields (whatever lengths an
   * earlier call left behind), the output would be what the fresh-header `ToWav` gives,
   * and the fixed fields would stay as they were.
   */
  lemma MutableHeaderMatchesToWav(header: seq<byte>, data: seq<byte>)
    requires |header| == HeaderSize && IsUInt32(|data| + 36)
    requires header[..4] == Template()[..4] && header[8..40] == Template()[8..40]
    ensures ToWavAsWritten(Mutable(header), data).Ok?
    ensures ToWavAsWritten(Mutable(header), data).value.1 == ToWav(data).value
    ensures var after := ToWavAsWritten(Mutable(header), data).value.0.bytes;
      after[..4] == Template()[..4] && after[8..40] == Template()[8..40]
  {
    var length := |data|;
    var t := Template();
    Splice(header, LE32(length + 36), LE32(length));
    Splice(t, LE32(length + 36), LE32(length));
    WrittenTemplateIsPacked(length);
  }
}
