/**
 * `SaveWav` from the audio-effect tests: a 16-bit PCM RIFF/WAVE serialiser,
 * and the round trip it completes with the decoder.
 */
module WavWriter {
  import opened Common
  import Wav

  /** BinaryWriter.Write of a `short`: the low 16 bits of `v`, little-endian,
    * so that a `(short)` cast of a wider value wraps as in C#. */
  function LE16(v: int): (b: seq<Byte>)
    ensures |b| == 2
  {
    var u := v % 0x1_0000;
    [u % 0x100, u / 0x100]
  }

  /** BinaryWriter.Write of an `int`: the low 32 bits of `v`, little-endian. */
  function LE32(v: int): (b: seq<Byte>)
    ensures |b| == 4
  {
    var u := v % 0x1_0000_0000;
    LE16(u % 0x1_0000) + LE16(u / 0x1_0000)
  }

  /** `(short)(Math.Max(-1, Math.Min(1, x)) * 32767)`: clamp, scale, truncate toward zero. */
  function ToPcm16(x: real): (s: int)
    ensures -32767 <= s <= 32767
    ensures -1.0 <= x <= 1.0 ==> -1.0 < s as real - x * 32767.0 < 1.0
    ensures x >= 1.0 ==> s == 32767
    ensures x <= -1.0 ==> s == -32767
  {
    Trunc(Clamp(x, -1.0, 1.0) * 32767.0)
  }

  /** The 44 header bytes SaveWav writes before `n` samples. */
  function Header(n: int, sampleRate: int, channels: int): (h: seq<Byte>)
    ensures |h| == 44
  {
    Wav.RIFF + LE32(36 + n * 2) + Wav.WAVE
    + Wav.FMT + LE32(16) + LE16(1) + LE16(channels) + LE32(sampleRate)
    + LE32(sampleRate * channels * 2) + LE16(channels * 2) + LE16(16)
    + Wav.DATA + LE32(n * 2)
  }

  /** The sample bytes, two per sample, in order. */
  function PcmBytes(samples: seq<real>): (b: seq<Byte>)
    ensures |b| == 2 * |samples|
  {
    if samples == [] then []
    else PcmBytes(samples[..|samples| - 1]) + LE16(ToPcm16(samples[|samples| - 1]))
  }

  function WavFile(samples: seq<real>, sampleRate: int, channels: int): seq<Byte>
  {
    Header(|samples|, sampleRate, channels) + PcmBytes(samples)
  }

  /** SaveWav, writing the header fields and then each sample in turn. */
  method SaveWav(samples: seq<real>, sampleRate: int, channels: int) returns (bytes: seq<Byte>)
    ensures bytes == WavFile(samples, sampleRate, channels)
    ensures |bytes| == 44 + 2 * |samples|
  {
    // RIFF header
    bytes := Wav.RIFF;
    bytes := bytes + LE32(36 + |samples| * 2);
    bytes := bytes + Wav.WAVE;
    // fmt chunk
    bytes := bytes + Wav.FMT;
    bytes := bytes + LE32(16);
    bytes := bytes + LE16(1);
    bytes := bytes + LE16(channels);
    bytes := bytes + LE32(sampleRate);
    bytes := bytes + LE32(sampleRate * channels * 2);
    bytes := bytes + LE16(channels * 2);
    bytes := bytes + LE16(16);
    // data chunk
    bytes := bytes + Wav.DATA;
    bytes := bytes + LE32(|samples| * 2);
    assert bytes == Header(|samples|, sampleRate, channels);
    for i := 0 to |samples|
      invariant bytes == Header(|samples|, sampleRate, channels) + PcmBytes(samples[..i])
    {
      assert samples[..i + 1][..i] == samples[..i];
      bytes := bytes + LE16(ToPcm16(samples[i]));
    }
    assert samples[..|samples|] == samples;
  }

  /** Reading back a written `short` gives the value, for every 16-bit value. */
  lemma ReadLE16(file: seq<Byte>, at: int, v: int)
    requires 0 <= at && at + 2 <= |file| && file[at..at + 2] == LE16(v)
    requires -0x8000 <= v < 0x8000
    ensures Wav.I16(file, at) == v
  {
    assert file[at] == LE16(v)[0] && file[at + 1] == LE16(v)[1];
  }

  /** Reading back a written `int` gives the value, for every 32-bit value. */
  lemma ReadLE32(file: seq<Byte>, at: int, v: int)
    requires 0 <= at && at + 4 <= |file| && file[at..at + 4] == LE32(v)
    requires -0x8000_0000 <= v < 0x8000_0000
    ensures Wav.I32(file, at) == v
  {
    var u := v % 0x1_0000_0000;
    var lo, hi := u % 0x1_0000, u / 0x1_0000;
    var b := LE16(lo) + LE16(hi);
    assert file[at..at + 4] == b;
    assert file[at..at + 2] == b[0..2] == LE16(lo);
    assert file[at + 2..at + 4] == b[2..4] == LE16(hi);
    ReadU16(file, at, lo);
    ReadU16(file, at + 2, hi);
    assert lo + 0x1_0000 * hi == u;
  }

  /** Reading back a written `ushort` gives the value. */
  lemma ReadU16(file: seq<Byte>, at: int, w: int)
    requires 0 <= at && at + 2 <= |file| && file[at..at + 2] == LE16(w)
    requires 0 <= w < 0x1_0000
    ensures Wav.U16(file, at) == w
  {
    assert file[at] == LE16(w)[0] && file[at + 1] == LE16(w)[1];
  }

  /**
   * The header fields in the order SaveWav writes them: "RIFF", 36 + 2n,
   * "WAVE", "fmt ", 16, tag 1, channels, rate, byte rate, block align, 16,
   * "data", 2n.
   */
  lemma HeaderLayout(n: int, sampleRate: int, channels: int)
    ensures var h := Header(n, sampleRate, channels);
      && h[0..4] == Wav.RIFF && h[4..8] == LE32(36 + n * 2) && h[8..12] == Wav.WAVE
      && h[12..16] == Wav.FMT && h[16..20] == LE32(16) && h[20..22] == LE16(1)
      && h[22..24] == LE16(channels) && h[24..28] == LE32(sampleRate)
      && h[28..32] == LE32(sampleRate * channels * 2) && h[32..34] == LE16(channels * 2)
      && h[34..36] == LE16(16) && h[36..40] == Wav.DATA && h[40..44] == LE32(n * 2)
  {
    var riff := Wav.RIFF + LE32(36 + n * 2) + Wav.WAVE;
    assert riff[0..4] == Wav.RIFF && riff[4..8] == LE32(36 + n * 2) && riff[8..12] == Wav.WAVE;
  }

  /** Sample `i` sits at bytes `2i` and `2i + 1` of the sample area. */
  lemma {:induction false} PcmBytesAt(samples: seq<real>, i: int)
    requires 0 <= i < |samples|
    ensures PcmBytes(samples)[2 * i..2 * i + 2] == LE16(ToPcm16(samples[i]))
  {
    var last := |samples| - 1;
    var init := samples[..last];
    assert PcmBytes(samples) == PcmBytes(init) + LE16(ToPcm16(samples[last]));
    if i < last {
      PcmBytesAt(init, i);
      assert init[i] == samples[i];
    }
  }

  /** What the decoder should give back for written samples: each 16-bit value over 32768. */
  function Quantised(samples: seq<real>): (q: seq<real>)
    ensures |q| == |samples|
    ensures forall i :: 0 <= i < |q| ==> -1.0 < q[i] < 1.0
  {
    seq(|samples|, i requires 0 <= i < |samples| => ToPcm16(samples[i]) as real / 32768.0)
  }

  lemma Even(n: int)
    ensures (2 * n) % 2 == 0 && (2 * n) / 2 == n
  {
  }

  /** One step of the walk: a 16-byte `fmt ` chunk at byte 12 is read, and the walk moves to byte 36. */
  lemma ScanFmtChunk(file: seq<Byte>)
    requires 36 <= |file| && file[12..16] == Wav.FMT && Wav.I32(file, 16) == 16
    ensures Wav.Scan(file, 12, Wav.NoChunks) == Wav.Scan(file, 36, Wav.NoChunks.(fmt := Wav.ReadFormat(file, 20)))
  {
    assert Wav.ChunkEnd(12, 16) == 36;
    assert Wav.Record(file, file[12..16], 20, 16, Wav.NoChunks) == Wav.NoChunks.(fmt := Wav.ReadFormat(file, 20));
    Wav.ScanStep(file, 12, Wav.NoChunks, 36, Wav.NoChunks.(fmt := Wav.ReadFormat(file, 20)));
  }

  /** The next step: a `data` chunk at byte 36 that reaches or passes the end of the file ends the walk. */
  lemma ScanDataChunk(file: seq<Byte>, size: int, fmt: Wav.Format)
    requires 44 <= |file| <= 44 + size && size % 2 == 0
    requires file[36..40] == Wav.DATA && Wav.I32(file, 40) == size
    ensures Wav.Scan(file, 36, Wav.NoChunks.(fmt := fmt)) == Some(Wav.Chunks(fmt, 44, size))
  {
    if |file| == 44 + size {
      assert Wav.Scan(file, 44 + size, Wav.Chunks(fmt, 44, size)) == Some(Wav.Chunks(fmt, 44, size));
    }
  }

  /** The fields of the `fmt ` chunk of a written header, read back. */
  lemma ReadWrittenFormat(file: seq<Byte>, n: int, sampleRate: int, channels: int)
    requires 44 <= |file| && file[..44] == Header(n, sampleRate, channels)
    requires -0x8000 <= channels < 0x8000
    requires -0x8000_0000 <= sampleRate < 0x8000_0000
    requires 0 <= 2 * n < 0x8000_0000
    ensures file[12..16] == Wav.FMT && Wav.I32(file, 16) == 16
    ensures Wav.ReadFormat(file, 20) == Wav.Format(1, channels, sampleRate, 16)
    ensures file[36..40] == Wav.DATA && Wav.I32(file, 40) == 2 * n
  {
    var h := Header(n, sampleRate, channels);
    HeaderLayout(n, sampleRate, channels);
    assert file[12..16] == h[12..16];
    assert file[16..20] == h[16..20];
    assert file[20..22] == h[20..22] && file[22..24] == h[22..24];
    assert file[24..28] == h[24..28] && file[34..36] == h[34..36];
    assert file[36..40] == h[36..40];
    assert file[40..44] == h[40..44];
    ReadLE32(file, 16, 16);
    ReadLE16(file, 20, 1);
    ReadLE16(file, 22, channels);
    ReadLE32(file, 24, sampleRate);
    ReadLE16(file, 34, 16);
    ReadLE32(file, 40, 2 * n);
  }

  /**
   * The walk over any file that starts with a written header and holds at most
   * the declared data: the `fmt ` chunk, then the `data` chunk, which ends or
   * overruns the file.
   */
  lemma ScanWritten(file: seq<Byte>, n: int, sampleRate: int, channels: int)
    requires 44 <= |file| <= 44 + 2 * n && 36 + 2 * n < 0x8000_0000
    requires file[..44] == Header(n, sampleRate, channels)
    requires -0x8000 <= channels < 0x8000
    requires -0x8000_0000 <= sampleRate < 0x8000_0000
    ensures file[0..4] == Wav.RIFF && file[8..12] == Wav.WAVE
    ensures Wav.Scan(file, 12, Wav.NoChunks)
         == Some(Wav.Chunks(Wav.Format(1, channels, sampleRate, 16), 44, 2 * n))
  {
    var h := Header(n, sampleRate, channels);
    HeaderLayout(n, sampleRate, channels);
    assert file[0..4] == h[0..4] && file[8..12] == h[8..12];
    ReadWrittenFormat(file, n, sampleRate, channels);
    ScanFmtChunk(file);
    Even(n);
    ScanDataChunk(file, 2 * n, Wav.Format(1, channels, sampleRate, 16));
  }

  /**
   * Round trip: decoding what SaveWav wrote gives back the channel count, the
   * rate, one sample per written sample, and each sample's 16-bit value over
   * 32768.
   */
  lemma RoundTrip(samples: seq<real>, sampleRate: int, channels: int, single: seq<Byte> -> real)
    requires 0 < |samples| && 36 + 2 * |samples| < 0x8000_0000
    requires 0 < channels < 0x8000
    requires -0x8000_0000 <= sampleRate < 0x8000_0000
    ensures Wav.Decode(WavFile(samples, sampleRate, channels), single)
         == Some(Wav.Sound(Quantised(samples), channels, sampleRate))
  {
    var n := |samples|;
    var w := WavFile(samples, sampleRate, channels);
    assert w[..44] == Header(n, sampleRate, channels);
    ScanWritten(w, n, sampleRate, channels);
    var fmt := Wav.Format(1, channels, sampleRate, 16);
    Even(n);
    assert Wav.Width(fmt) == 2 && Wav.Converts(fmt);
    var data := Wav.Samples(w, 44, n, fmt, single);
    forall i | 0 <= i < n
      ensures data[i] == Quantised(samples)[i]
    {
      PcmBytesAt(samples, i);
      assert w[44 + 2 * i..44 + 2 * i + 2] == PcmBytes(samples)[2 * i..2 * i + 2];
      ReadLE16(w, 44 + 2 * i, ToPcm16(samples[i]));
    }
    assert data == Quantised(samples);
  }

  /** With no samples the data chunk is empty, and the decoder refuses the file. */
  lemma EmptyIsRefused(sampleRate: int, channels: int, single: seq<Byte> -> real)
    requires -0x8000 <= channels < 0x8000
    requires -0x8000_0000 <= sampleRate < 0x8000_0000
    ensures Wav.Decode(WavFile([], sampleRate, channels), single) == None
  {
    var w := WavFile([], sampleRate, channels);
    assert w == w[..44] == Header(0, sampleRate, channels);
    ScanWritten(w, 0, sampleRate, channels);
  }

  /** A written file missing its last byte declares more data than it holds: refused, not truncated. */
  lemma TruncatedIsRefused(samples: seq<real>, sampleRate: int, channels: int, single: seq<Byte> -> real)
    requires 0 < |samples| && 36 + 2 * |samples| < 0x8000_0000
    requires 0 < channels < 0x8000
    requires -0x8000_0000 <= sampleRate < 0x8000_0000
    ensures var w := WavFile(samples, sampleRate, channels);
      Wav.Decode(w[..|w| - 1], single) == None
  {
    var n := |samples|;
    var w := WavFile(samples, sampleRate, channels);
    var t := w[..|w| - 1];
    assert t[..44] == w[..44] == Header(n, sampleRate, channels);
    ShortDataIsRefused(t, n, sampleRate, channels, single);
  }

  /**
   * Any file that starts with a written header for `n > 0` samples but holds
   * fewer than the `2n` data bytes it declares is refused.
   */
  lemma ShortDataIsRefused(file: seq<Byte>, n: int, sampleRate: int, channels: int, single: seq<Byte> -> real)
    requires 44 <= |file| < 44 + 2 * n && 36 + 2 * n < 0x8000_0000
    requires file[..44] == Header(n, sampleRate, channels)
    requires 0 < channels < 0x8000
    requires -0x8000_0000 <= sampleRate < 0x8000_0000
    ensures Wav.Decode(file, single) == None
  {
    ScanWritten(file, n, sampleRate, channels);
    var fmt := Wav.Format(1, channels, sampleRate, 16);
    Even(n);
    assert Wav.Width(fmt) == 2 && Wav.Converts(fmt);
    assert 44 + n * Wav.Width(fmt) > |file|;
  }
}
