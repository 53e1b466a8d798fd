/**
 * Byte-level encodings used by the PCM payload and the WAV header:
 * unsigned little-endian 16- and 32-bit fields (struct format codes `<H` and `<I`)
 * and signed 16-bit two's-complement samples (NumPy's int16 `tobytes()` on a
 * little-endian machine).
 */
module Bytes {
  newtype byte = b: int | 0 <= b < 256

  const Two16: int := 0x1_0000
  const Two32: int := 0x1_0000_0000

  predicate IsUInt16(v: int) { 0 <= v < Two16 }
  predicate IsUInt32(v: int) { 0 <= v < Two32 }
  predicate IsInt16(v: int) { -0x8000 <= v < 0x8000 }

  /** `pack('<H', v)`: least significant byte first. */
  function LE16(v: int): (r: seq<byte>)
    requires IsUInt16(v)
    ensures |r| == 2
  {
    [(v % 256) as byte, (v / 256) as byte]
  }

  /** The value an unsigned little-endian 16-bit field holds. */
  function FromLE16(b: seq<byte>): (v: int)
    requires |b| == 2
    ensures IsUInt16(v)
  {
    b[0] as int + 256 * b[1] as int
  }

  /** `pack('<I', v)`: least significant byte first. */
  function LE32(v: int): (r: seq<byte>)
    requires IsUInt32(v)
    ensures |r| == 4
  {
    [(v % 256) as byte, (v / 0x100 % 256) as byte, (v / 0x1_0000 % 256) as byte, (v / 0x100_0000) as byte]
  }

  /** The value an unsigned little-endian 32-bit field holds. */
  function FromLE32(b: seq<byte>): (v: int)
    requires |b| == 4
    ensures IsUInt32(v)
  {
    b[0] as int + 0x100 * b[1] as int + 0x1_0000 * b[2] as int + 0x100_0000 * b[3] as int
  }

  lemma LE16RoundTrip(v: int)
    requires IsUInt16(v)
    ensures FromLE16(LE16(v)) == v
  {
  }

  lemma LE16OfFromLE16(b: seq<byte>)
    requires |b| == 2
    ensures LE16(FromLE16(b)) == b
  {
    var v := FromLE16(b);
    assert LE16(v)[0] == b[0] && LE16(v)[1] == b[1];
  }

  lemma LE32RoundTrip(v: int)
    requires IsUInt32(v)
    ensures FromLE32(LE32(v)) == v
  {
    var b := LE32(v);
    assert v / 0x100 == v / 0x100 % 256 * 1 + 256 * (v / 0x1_0000) by {
      assert v / 0x1_0000 == (v / 0x100) / 256;
    }
    assert v / 0x1_0000 == v / 0x1_0000 % 256 + 256 * (v / 0x100_0000) by {
      assert v / 0x100_0000 == (v / 0x1_0000) / 256;
    }
  }

  lemma LE32OfFromLE32(b: seq<byte>)
    requires |b| == 4
    ensures LE32(FromLE32(b)) == b
  {
    var v := FromLE32(b);
    var b0, b1, b2, b3 := b[0] as int, b[1] as int, b[2] as int, b[3] as int;
    assert v / 0x100 == b1 + 0x100 * b2 + 0x1_0000 * b3;
    assert v / 0x1_0000 == b2 + 0x100 * b3;
    assert v / 0x100_0000 == b3;
    assert LE32(v)[0] == b[0] && LE32(v)[1] == b[1] && LE32(v)[2] == b[2] && LE32(v)[3] == b[3];
  }

  /** A signed 16-bit sample as two's complement, little-endian. */
  function EncodeInt16(v: int): (r: seq<byte>)
    requires IsInt16(v)
    ensures |r| == 2
    ensures (r[1] >= 0x80) <==> v < 0
  {
    LE16(if v < 0 then v + Two16 else v)
  }

  /** Reads a signed 16-bit sample back from its two bytes. */
  function DecodeInt16(b: seq<byte>): (v: int)
    requires |b| == 2
    ensures IsInt16(v)
    ensures v < 0 <==> b[1] >= 0x80
  {
    var u := FromLE16(b);
    if u >= 0x8000 then u - Two16 else u
  }

  lemma {:induction false} Int16RoundTrip(v: int)
    requires IsInt16(v)
    ensures DecodeInt16(EncodeInt16(v)) == v
  {
    LE16RoundTrip(if v < 0 then v + Two16 else v);
  }

  lemma {:induction false} EncodeOfDecodeInt16(b: seq<byte>)
    requires |b| == 2
    ensures EncodeInt16(DecodeInt16(b)) == b
  {
    LE16OfFromLE16(b);
  }
}
