/**
 * The audio converter: a 44-byte RIFF/WAVE header for 16 kHz, mono,
 * 16-bit PCM (the RIFF chunk, the "fmt " chunk for WAVE_FORMAT_PCM and
 * the "data" chunk of the Microsoft/IBM Multimedia Programming Interface
 * and Data Specifications 1.0), the pass-through for data that is already
 * RIFF, and the size check applied before transcription.
 */
module Wav {
  import opened Common

  const SampleRate: nat := 16000
  const Channels: nat := 1
  const BitsPerSample: nat := 16
  const ByteRate: nat := SampleRate * Channels * BitsPerSample / 8
  const BlockAlign: nat := Channels * BitsPerSample / 8
  const HeaderSize: nat := 44
  const MaxU32: nat := 0xFFFF_FFFF
  const MinAudioBytes: nat := 2048

  /** The ASCII bytes of the four-character chunk tags. */
  const Riff: seq<byte> := [0x52, 0x49, 0x46, 0x46]
  const Wave: seq<byte> := [0x57, 0x41, 0x56, 0x45]
  const Fmt: seq<byte> := [0x66, 0x6D, 0x74, 0x20]
  const Data: seq<byte> := [0x64, 0x61, 0x74, 0x61]

  /** `writeUInt32LE`: the four little-endian bytes of `v`. */
  function U32LE(v: nat): (b: seq<byte>)
    requires v <= MaxU32
    ensures |b| == 4
  {
    [(v % 256) as byte, (v / 256 % 256) as byte, (v / 256 / 256 % 256) as byte, (v / 256 / 256 / 256 % 256) as byte]
  }

  /** `writeUInt16LE`: the two little-endian bytes of `v`. */
  function U16LE(v: nat): (b: seq<byte>)
    requires v <= 0xFFFF
    ensures |b| == 2
  {
    [(v % 256) as byte, (v / 256 % 256) as byte]
  }

  /** `readUInt32LE(offset)`. */
  function ReadU32LE(b: seq<byte>, offset: nat): nat
    requires offset + 4 <= |b|
  {
    b[offset] as nat + 256 * b[offset + 1] as nat + 65536 * b[offset + 2] as nat + 16777216 * b[offset + 3] as nat
  }

  /** `readUInt16LE(offset)`. */
  function ReadU16LE(b: seq<byte>, offset: nat): nat
    requires offset + 2 <= |b|
  {
    b[offset] as nat + 256 * b[offset + 1] as nat
  }

  lemma U32RoundTrip(v: nat)
    requires v <= MaxU32
    ensures ReadU32LE(U32LE(v), 0) == v
  {
    var q1 := v / 256;
    var q2 := q1 / 256;
    var q3 := q2 / 256;
    assert v == v % 256 + 256 * q1;
    assert q1 == q1 % 256 + 256 * q2;
    assert q2 == q2 % 256 + 256 * q3;
    assert q3 < 256;
  }

  lemma U16RoundTrip(v: nat)
    requires v <= 0xFFFF
    ensures ReadU16LE(U16LE(v), 0) == v
  {
  }

  /** The RIFF chunk descriptor: tag, file size less 8, format. */
  function RiffChunk(dataSize: nat): (b: seq<byte>)
    requires 36 + dataSize <= MaxU32
    ensures |b| == 12
  {
    Riff + U32LE(36 + dataSize) + Wave
  }

  /** The "fmt " sub-chunk for 16 kHz mono 16-bit PCM. */
  function FmtChunk(): (b: seq<byte>)
    ensures |b| == 24
  {
    Fmt + U32LE(16) + U16LE(1) + U16LE(Channels)
    + U32LE(SampleRate) + U32LE(ByteRate) + U16LE(BlockAlign) + U16LE(BitsPerSample)
  }

  /** The "data" sub-chunk's tag and size. */
  function DataChunkHeader(dataSize: nat): (b: seq<byte>)
    requires dataSize <= MaxU32
    ensures |b| == 8
  {
    Data + U32LE(dataSize)
  }

  /** The 44-byte header for `dataSize` bytes of PCM samples. */
  function WavHeader(dataSize: nat): (h: seq<byte>)
    requires 36 + dataSize <= MaxU32
    ensures |h| == HeaderSize
  {
    RiffChunk(dataSize) + FmtChunk() + DataChunkHeader(dataSize)
  }

  /** Where each field of the header sits and what it reads back as. */
  lemma HeaderLayout(n: nat)
    requires 36 + n <= MaxU32
    ensures var h := WavHeader(n);
      && h[0..4] == Riff && ReadU32LE(h, 4) == 36 + n && h[8..12] == Wave
      && h[12..16] == Fmt && ReadU32LE(h, 16) == 16 && ReadU16LE(h, 20) == 1 && ReadU16LE(h, 22) == 1
      && ReadU32LE(h, 24) == 16000 && ReadU32LE(h, 28) == 32000 && ReadU16LE(h, 32) == 2 && ReadU16LE(h, 34) == 16
      && h[36..40] == Data && ReadU32LE(h, 40) == n
  {
    var h := WavHeader(n);
    assert h[4..8] == U32LE(36 + n);
    assert h[16..20] == U32LE(16);
    assert h[20..22] == U16LE(1);
    assert h[22..24] == U16LE(Channels);
    assert h[24..28] == U32LE(SampleRate);
    assert h[28..32] == U32LE(ByteRate);
    assert h[32..34] == U16LE(BlockAlign);
    assert h[34..36] == U16LE(BitsPerSample);
    assert h[40..44] == U32LE(n);
    ReadU32At(h, 4, 36 + n);
    ReadU32At(h, 16, 16);
    ReadU16At(h, 20, 1);
    ReadU16At(h, 22, 1);
    ReadU32At(h, 24, SampleRate);
    ReadU32At(h, 28, ByteRate);
    ReadU16At(h, 32, BlockAlign);
    ReadU16At(h, 34, BitsPerSample);
    ReadU32At(h, 40, n);
  }

  lemma ReadU32At(h: seq<byte>, offset: nat, v: nat)
    requires v <= MaxU32 && offset + 4 <= |h| && h[offset..offset + 4] == U32LE(v)
    ensures ReadU32LE(h, offset) == v
  {
    U32RoundTrip(v);
    var b := U32LE(v);
    assert h[offset] == b[0] && h[offset + 1] == b[1] && h[offset + 2] == b[2] && h[offset + 3] == b[3];
  }

  lemma ReadU16At(h: seq<byte>, offset: nat, v: nat)
    requires v <= 0xFFFF && offset + 2 <= |h| && h[offset..offset + 2] == U16LE(v)
    ensures ReadU16LE(h, offset) == v
  {
    U16RoundTrip(v);
    var b := U16LE(v);
    assert h[offset] == b[0] && h[offset + 1] == b[1];
  }

  /** `buf.write(...)` / `buf.writeUInt..LE(...)`: copies `bytes` to `buf` at `offset`. */
  method WriteBytes(buf: array<byte>, offset: nat, bytes: seq<byte>)
    requires offset + |bytes| <= buf.Length
    modifies buf
    ensures buf[..offset + |bytes|] == old(buf[..offset]) + bytes
    ensures buf[offset + |bytes|..] == old(buf[offset + |bytes|..])
  {
    var k := 0;
    while k < |bytes|
      invariant 0 <= k <= |bytes|
      invariant buf[..offset + k] == old(buf[..offset]) + bytes[..k]
      invariant buf[offset + k..] == old(buf[offset + k..])
    {
      buf[offset + k] := bytes[k];
      k := k + 1;
    }
  }

  /** The WAV file for raw PCM: `createWavFromPCM` (audioConverter.js). */
  function WavFile(pcm: seq<byte>): Result<seq<byte>, string>
  {
    if 36 + |pcm| <= MaxU32 then Ok(WavHeader(|pcm|) + pcm) else Err("RangeError: value out of range")
  }

  /** Writes bytes 0-11 of the header, field by field. */
  method WriteRiffChunk(header: array<byte>, dataSize: nat)
    requires header.Length == HeaderSize && 36 + dataSize <= MaxU32
    modifies header
    ensures header[..12] == RiffChunk(dataSize)
  {
    WriteBytes(header, 0, Riff);
    WriteBytes(header, 4, U32LE(36 + dataSize));
    ghost var h := Riff + U32LE(36 + dataSize);
    assert header[..8] == h;
    WriteBytes(header, 8, Wave);
  }

  /** Writes bytes 12-35 of the header, field by field, leaving the first twelve. */
  method WriteFmtChunk(header: array<byte>)
    requires header.Length == HeaderSize
    modifies header
    ensures header[..36] == old(header[..12]) + FmtChunk()
  {
    ghost var h := header[..12];
    WriteBytes(header, 12, Fmt);
    h := h + Fmt;
    WriteBytes(header, 16, U32LE(16));
    h := h + U32LE(16);
    assert header[..20] == h;
    WriteBytes(header, 20, U16LE(1));
    h := h + U16LE(1);
    assert header[..22] == h;
    WriteBytes(header, 22, U16LE(Channels));
    h := h + U16LE(Channels);
    assert header[..24] == h;
    WriteBytes(header, 24, U32LE(SampleRate));
    h := h + U32LE(SampleRate);
    assert header[..28] == h;
    WriteBytes(header, 28, U32LE(ByteRate));
    h := h + U32LE(ByteRate);
    assert header[..32] == h;
    WriteBytes(header, 32, U16LE(BlockAlign));
    h := h + U16LE(BlockAlign);
    assert header[..34] == h;
    WriteBytes(header, 34, U16LE(BitsPerSample));
    h := h + U16LE(BitsPerSample);
    assert header[..36] == h;
  }

  /** Writes bytes 36-43 of the header, leaving the first thirty-six. */
  method WriteDataChunkHeader(header: array<byte>, dataSize: nat)
    requires header.Length == HeaderSize && dataSize <= MaxU32
    modifies header
    ensures header[..44] == old(header[..36]) + DataChunkHeader(dataSize)
  {
    WriteBytes(header, 36, Data);
    WriteBytes(header, 40, U32LE(dataSize));
    assert header[..44] == old(header[..36]) + Data + U32LE(dataSize);
  }

  /**
   * Allocates the header, writes its fields one after another and appends
   * the samples. `writeUInt32LE` throws for a file size above 2^32 - 1.
   */
  method CreateWavFromPcm(pcm: seq<byte>) returns (r: Result<seq<byte>, string>)
    ensures r == WavFile(pcm)
    ensures r.Ok? ==> |r.value| == HeaderSize + |pcm| && r.value[HeaderSize..] == pcm
  {
    var dataSize := |pcm|;
    var fileSize := 36 + dataSize;
    if fileSize > MaxU32 {
      return Err("RangeError: value out of range");
    }
    var header := new byte[HeaderSize];
    WriteRiffChunk(header, dataSize);
    WriteFmtChunk(header);
    WriteDataChunkHeader(header, dataSize);
    assert header[..44] == WavHeader(dataSize);
    assert header[..] == header[..HeaderSize];
    r := Ok(header[..] + pcm);
  }

  /** The kinds of input `convertAudioToWav` distinguishes. */
  datatype AudioData =
    | NodeBuffer(bytes: seq<byte>)
    | ArrayBufferData(bytes: seq<byte>)
    | Int16ArrayData(underlying: seq<byte>)  // the bytes of the array's whole `.buffer`
    | Unsupported

  /**
   * `b.toString("ascii", 0, 4) === "RIFF"`: Node's "ascii" decoding clears
   * the high bit of each byte, so 0xD2 reads as "R" just as 0x52 does.
   */
  predicate StartsWithRiff(b: seq<byte>)
  {
    |b| >= 4 && forall i :: 0 <= i < 4 ==> b[i] % 128 == Riff[i]
  }

  /** What `convertAudioToWav` resolves to or rejects with. */
  function Converted(data: AudioData): Result<seq<byte>, string>
  {
    match data
    case NodeBuffer(b) => if StartsWithRiff(b) then Ok(b) else WavFile(b)
    case ArrayBufferData(b) => WavFile(b)
    case Int16ArrayData(b) => WavFile(b)
    case Unsupported => Err("Unsupported audio format")
  }

  method ConvertAudioToWav(data: AudioData) returns (r: Result<seq<byte>, string>)
    ensures r == Converted(data)
  {
    if data.NodeBuffer? {
      if |data.bytes| >= 4 && data.bytes[0] % 128 == 0x52 && data.bytes[1] % 128 == 0x49
        && data.bytes[2] % 128 == 0x46 && data.bytes[3] % 128 == 0x46
      {
        return Ok(data.bytes);
      }
      r := CreateWavFromPcm(data.bytes);
      return;
    }
    var buffer: seq<byte>;
    if data.ArrayBufferData? {
      buffer := data.bytes;
    } else if data.Int16ArrayData? {
      buffer := data.underlying;
    } else {
      return Err("Unsupported audio format");
    }
    r := CreateWavFromPcm(buffer);
  }

  /** A Buffer that already starts with "RIFF" comes back unchanged. */
  lemma RiffPassesThrough(b: seq<byte>)
    requires StartsWithRiff(b)
    ensures Converted(NodeBuffer(b)) == Ok(b)
  {
  }

  /** Converting a Buffer twice gives what converting it once gives. */
  lemma ConvertIdempotent(b: seq<byte>)
    requires Converted(NodeBuffer(b)).Ok?
    ensures Converted(NodeBuffer(Converted(NodeBuffer(b)).value)) == Converted(NodeBuffer(b))
  {
    if !StartsWithRiff(b) {
      var w := WavHeader(|b|) + b;
      assert w[..4] == Riff;
      assert StartsWithRiff(w);
    }
  }

  /** `validateAudioBuffer`: empty and under-2 KB buffers are rejected. */
  function ValidateAudioBuffer(b: seq<byte>): (r: Result<bool, string>)
    ensures r.Ok? <==> |b| >= MinAudioBytes
    ensures r.Ok? ==> r.value
    ensures |b| == 0 ==> r == Err("Empty audio buffer")
    ensures 0 < |b| < MinAudioBytes ==> r == Err("Audio buffer too small (less than 2KB)")
  {
    if |b| == 0 then Err("Empty audio buffer")
    else if |b| < MinAudioBytes then Err("Audio buffer too small (less than 2KB)")
    else Ok(true)
  }
}
