/**
 * `WaveReader.Load`: the RIFF/WAVE decoder the sound mixer loads its assets
 * with. The file is a byte sequence instead of a stream; reading past its end,
 * which makes the source's BinaryReader throw and `Load` return null, is a
 * `None` here.
 */
module Wav {
  import opened Common

  /** `EffekseerSound`: interleaved samples, channel count and native rate. */
  datatype Sound = Sound(data: seq<real>, channels: int, sampleRate: int)

  // Four-character codes, as the ASCII bytes of "RIFF", "WAVE", "fmt " and "data".
  const RIFF: seq<Byte> := [0x52, 0x49, 0x46, 0x46]
  const WAVE: seq<Byte> := [0x57, 0x41, 0x56, 0x45]
  const FMT: seq<Byte> := [0x66, 0x6D, 0x74, 0x20]
  const DATA: seq<Byte> := [0x64, 0x61, 0x74, 0x61]

  const WAVE_FORMAT_PCM: int := 1
  const WAVE_FORMAT_IEEE_FLOAT: int := 3

  /** The fields of a `fmt ` chunk that Load keeps. */
  datatype Format = Format(audioFormat: int, channels: int, sampleRate: int, bitsPerSample: int)

  /** What the chunk walk has found so far; `dataStart == -1` means no `data` chunk yet. */
  datatype Chunks = Chunks(fmt: Format, dataStart: int, dataSize: int)

  const NoChunks: Chunks := Chunks(Format(0, 0, 0, 0), -1, 0)

  // Little-endian integers, as BinaryReader.ReadInt16 / ReadInt32 read them.

  function U16(file: seq<Byte>, at: int): (v: int)
    requires 0 <= at && at + 2 <= |file|
    ensures 0 <= v < 0x1_0000
  {
    file[at] as int + 0x100 * file[at + 1] as int
  }

  function I16(file: seq<Byte>, at: int): (v: int)
    requires 0 <= at && at + 2 <= |file|
    ensures -0x8000 <= v < 0x8000
  {
    var u := U16(file, at);
    if u < 0x8000 then u else u - 0x1_0000
  }

  function I32(file: seq<Byte>, at: int): (v: int)
    requires 0 <= at && at + 4 <= |file|
    ensures -0x8000_0000 <= v < 0x8000_0000
  {
    var u := U16(file, at) + 0x1_0000 * U16(file, at + 2);
    if u < 0x8000_0000 then u else u - 0x1_0000_0000
  }

  /** The 16 bytes of a `fmt ` body: tag, channels, rate, byte rate, block align, bits. */
  function ReadFormat(file: seq<Byte>, at: int): (f: Format)
    requires 0 <= at && at + 16 <= |file|
    ensures -0x8000 <= f.channels < 0x8000 && -0x8000 <= f.bitsPerSample < 0x8000
    ensures f.audioFormat == WAVE_FORMAT_PCM <==> file[at] == 1 && file[at + 1] == 0
    ensures f.audioFormat == WAVE_FORMAT_IEEE_FLOAT <==> file[at] == 3 && file[at + 1] == 0
  {
    Format(I16(file, at), I16(file, at + 2), I32(file, at + 4), I16(file, at + 14))
  }

  /** Where the chunk that starts at `pos` with declared `size` ends, padding odd sizes. */
  function ChunkEnd(pos: int, size: int): (e: int)
    ensures pos + 8 + size <= e <= pos + 9 + size
    ensures (e - pos) % 2 == 0
  {
    pos + 8 + size + (if size % 2 != 0 then 1 else 0)
  }

  /** What one chunk header adds to the walk: a `fmt ` of at least 16 bytes replaces
    * the format, the first `data` chunk is remembered and later ones ignored. */
  function Record(file: seq<Byte>, id: seq<Byte>, body: int, size: int, acc: Chunks): (r: Chunks)
    requires 0 <= body
    requires id == FMT && size >= 16 ==> body + 16 <= |file|
    ensures r.fmt == (if id == FMT && size >= 16 then ReadFormat(file, body) else acc.fmt)
    ensures acc.dataStart != -1 || id != DATA ==> r.dataStart == acc.dataStart && r.dataSize == acc.dataSize
    ensures acc.dataStart == -1 && id == DATA ==> r.dataStart == body && r.dataSize == size
  {
    if id == FMT then
      (if size >= 16 then acc.(fmt := ReadFormat(file, body)) else acc)
    else if id == DATA && acc.dataStart == -1 then
      acc.(dataStart := body, dataSize := size)
    else
      acc
  }

  /**
   * The chunk walk from `pos`. It stops when fewer than 8 bytes remain or when a
   * chunk overruns the file; `None` when a `fmt ` body is cut short by the end of
   * the file (the reads throw), or when a negative size would move the walk back
   * to or before the chunk it is in.
   */
  function Scan(file: seq<Byte>, pos: nat, acc: Chunks): (r: Option<Chunks>)
    requires acc.dataStart == -1 || 0 <= acc.dataStart <= |file|
    ensures r.Some? ==> r.value.dataStart == -1 || 0 <= r.value.dataStart <= |file|
    ensures r.Some? && acc.dataStart != -1 ==>
      r.value.dataStart == acc.dataStart && r.value.dataSize == acc.dataSize
    ensures r.Some? && acc.fmt.channels < 0x8000 ==> r.value.fmt.channels < 0x8000
    decreases |file| - pos
  {
    if pos >= |file| || |file| - pos < 8 then Some(acc)
    else
      var id := file[pos..pos + 4];
      var size := I32(file, pos + 4);
      var next := ChunkEnd(pos, size);
      if id == FMT && size >= 16 && pos + 8 + 16 > |file| then None
      else
        var acc' := Record(file, id, pos + 8, size, acc);
        if next > |file| then Some(acc')
        else if next <= pos then None
        else Scan(file, next, acc')
  }

  /** One step of the walk over a chunk that ends inside the file, past its start. */
  lemma ScanStep(file: seq<Byte>, pos: nat, acc: Chunks, next: nat, acc': Chunks)
    requires acc.dataStart == -1 || 0 <= acc.dataStart <= |file|
    requires pos + 8 <= |file|
    requires var size := I32(file, pos + 4);
      && !(file[pos..pos + 4] == FMT && size >= 16 && pos + 8 + 16 > |file|)
      && next == ChunkEnd(pos, size) && pos < next <= |file|
      && acc' == Record(file, file[pos..pos + 4], pos + 8, size, acc)
    ensures acc'.dataStart == -1 || 0 <= acc'.dataStart <= |file|
    ensures Scan(file, pos, acc) == Scan(file, next, acc')
  {
  }

  /** The sample encodings Load converts: 16- and 8-bit PCM, 32-bit IEEE float. */
  predicate Converts(f: Format)
  {
    || (f.audioFormat == WAVE_FORMAT_PCM && (f.bitsPerSample == 16 || f.bitsPerSample == 8))
    || (f.audioFormat == WAVE_FORMAT_IEEE_FLOAT && f.bitsPerSample == 32)
  }

  /** Bytes per sample, `bitsPerSample / 8` (C# truncation; bits are positive here). */
  function Width(f: Format): int
    requires f.bitsPerSample > 0
  {
    f.bitsPerSample / 8
  }

  /**
   * One sample read at `at`: 16-bit PCM is `raw / 32768`, 8-bit PCM is
   * `(b - 128) / 128`, and a float sample is whatever `single` (the
   * BinaryReader's IEEE decoding, not modelled) makes of its four bytes.
   */
  function Sample(file: seq<Byte>, at: int, f: Format, single: seq<Byte> -> real): (x: real)
    requires Converts(f) && 0 <= at && at + Width(f) <= |file|
    ensures f.audioFormat == WAVE_FORMAT_PCM ==> -1.0 <= x < 1.0
  {
    if f.audioFormat == WAVE_FORMAT_PCM then
      if f.bitsPerSample == 16 then I16(file, at) as real / 32768.0
      else (file[at] as int - 128) as real / 128.0
    else
      single(file[at..at + 4])
  }

  /** The `n` samples from `start`; all zero when the encoding is not converted. */
  function Samples(file: seq<Byte>, start: int, n: nat, f: Format, single: seq<Byte> -> real): (s: seq<real>)
    requires f.bitsPerSample > 0 && 0 <= start
    requires Converts(f) ==> start + n * Width(f) <= |file|
    ensures |s| == n
    ensures !Converts(f) ==> forall i :: 0 <= i < n ==> s[i] == 0.0
    ensures Converts(f) && f.audioFormat == WAVE_FORMAT_PCM ==> forall i :: 0 <= i < n ==> -1.0 <= s[i] < 1.0
  {
    seq(n, i requires 0 <= i < n =>
      if Converts(f) then
        assert start + i * Width(f) + Width(f) <= start + n * Width(f) by { MulMono(i + 1, n, Width(f)); }
        Sample(file, start + i * Width(f), f, single)
      else 0.0)
  }

  /** One more sample is the next one, read `Width` bytes further on. */
  lemma SamplesSnoc(file: seq<Byte>, start: int, i: nat, f: Format, single: seq<Byte> -> real)
    requires f.bitsPerSample > 0 && 0 <= start && Converts(f)
    requires start + i * Width(f) + Width(f) <= |file|
    ensures start + i * Width(f) <= |file|
    ensures Samples(file, start, i + 1, f, single)
         == Samples(file, start, i, f, single) + [Sample(file, start + i * Width(f), f, single)]
  {
    MulStep(i, Width(f));
    var a := Samples(file, start, i + 1, f, single);
    var b := Samples(file, start, i, f, single) + [Sample(file, start + i * Width(f), f, single)];
    assert forall k :: 0 <= k < i + 1 ==> a[k] == b[k];
  }

  lemma DivMul(a: int, w: int)
    requires 0 <= a && 0 < w
    ensures (a / w) * w <= a
  {
  }

  lemma MulStep(i: int, w: int)
    ensures (i + 1) * w == i * w + w
  {
  }

  lemma MulMono(a: int, b: int, w: int)
    requires a <= b && 0 <= w
    ensures a * w <= b * w
  {
  }

  /**
   * What the chunk walk must have found for Load to read samples: a format
   * with channels and at least one whole byte per sample, and a non-empty
   * `data` chunk.
   */
  predicate Usable(c: Chunks)
  {
    c.fmt.channels > 0 && c.fmt.bitsPerSample >= 8 && c.dataStart != -1 && c.dataSize > 0
  }

  /**
   * `WaveReader.Load` on the bytes of a file: `None` for each of the source's
   * `return null` paths and for a read that runs past the end of the file.
   */
  function Decode(file: seq<Byte>, single: seq<Byte> -> real): (r: Option<Sound>)
    ensures |file| < 12 ==> r == None
    ensures |file| >= 12 && (file[0..4] != RIFF || file[8..12] != WAVE) ==> r == None
    ensures r.Some? ==> 0 < r.value.channels < 0x8000
    ensures r.Some? ==> |file| >= 12 && file[0..4] == RIFF && file[8..12] == WAVE
  {
    if |file| < 12 then None
    else if file[0..4] != RIFF || file[8..12] != WAVE then None
    else match Scan(file, 12, NoChunks)
      case None => None
      case Some(c) =>
        if !(c.fmt.channels > 0 && c.fmt.bitsPerSample > 0 && c.dataStart != -1 && c.dataSize > 0) then None
        else if Width(c.fmt) == 0 then None
        else
          var n := c.dataSize / Width(c.fmt);
          if Converts(c.fmt) && c.dataStart + n * Width(c.fmt) > |file| then None
          else Some(Sound(Samples(file, c.dataStart, n, c.fmt, single), c.fmt.channels, c.fmt.sampleRate))
  }

  /**
   * Past the header, Decode is decided by the chunk walk: no result unless
   * the walk ends and finds a usable format and `data` chunk; a result of
   * `dataSize / Width` samples, all zero, for an encoding Load does not
   * convert; and for one it converts, a result exactly when the whole
   * chunk lies inside the file.
   */
  lemma DecodeCases(file: seq<Byte>, single: seq<Byte> -> real)
    requires |file| >= 12 && file[0..4] == RIFF && file[8..12] == WAVE
    ensures var s, r := Scan(file, 12, NoChunks), Decode(file, single);
      && (s.None? ==> r == None)
      && (s.Some? && !Usable(s.value) ==> r == None)
      && (s.Some? && Usable(s.value) && !Converts(s.value.fmt) ==>
            r.Some? && forall i :: 0 <= i < |r.value.data| ==> r.value.data[i] == 0.0)
      && (s.Some? && Usable(s.value) && Converts(s.value.fmt) ==>
            (r == None <==> s.value.dataStart + s.value.dataSize / Width(s.value.fmt) * Width(s.value.fmt) > |file|))
      && (r.Some? ==>
            && s.Some? && Usable(s.value)
            && |r.value.data| == s.value.dataSize / Width(s.value.fmt)
            && r.value.channels == s.value.fmt.channels
            && r.value.sampleRate == s.value.fmt.sampleRate)
  {
  }

  /**
   * `WaveReader.Load`, step by step: check the RIFF header, walk the chunks
   * while at least 8 bytes remain, then convert the samples of the first
   * `data` chunk with the last `fmt ` seen.
   */
  method Load(file: seq<Byte>, single: seq<Byte> -> real) returns (r: Option<Sound>)
    ensures r == Decode(file, single)
  {
    if |file| < 12 { return None; }
    if file[0..4] != RIFF { return None; }
    // bytes 4..8 hold the RIFF size, which Load skips
    if file[8..12] != WAVE { return None; }

    var walked := WalkChunks(file);
    if walked == None { return None; }
    var acc := walked.value;

    if acc.fmt.channels > 0 && acc.fmt.bitsPerSample > 0 && acc.dataStart != -1 && acc.dataSize > 0 {
      var bytesPerSample := acc.fmt.bitsPerSample / 8;
      if bytesPerSample == 0 { return None; }
      var data := ReadSamples(file, acc.dataStart, acc.dataSize, acc.fmt, single);
      if data == None { return None; }
      return Some(Sound(data.value, acc.fmt.channels, acc.fmt.sampleRate));
    }
    return None;
  }

  /** The chunk walk of Load, from the byte after the RIFF header. */
  method WalkChunks(file: seq<Byte>) returns (r: Option<Chunks>)
    requires |file| >= 12
    ensures r == Scan(file, 12, NoChunks)
  {
    var acc := NoChunks;
    var pos := 12;
    while pos < |file|
      invariant 12 <= pos <= |file|
      invariant acc.dataStart == -1 || 0 <= acc.dataStart <= |file|
      invariant Scan(file, pos, acc) == Scan(file, 12, NoChunks)
      decreases |file| - pos
    {
      if |file| - pos < 8 { break; }
      var id := file[pos..pos + 4];
      var size := I32(file, pos + 4);
      var chunkEnd := pos + 8 + size;
      if size % 2 != 0 { chunkEnd := chunkEnd + 1; }
      ghost var before := acc;
      if id == FMT {
        if size >= 16 {
          // the six reads of the fmt body throw at the end of the file
          if pos + 8 + 16 > |file| { return None; }
          acc := acc.(fmt := ReadFormat(file, pos + 8));
        }
      } else if id == DATA {
        if acc.dataStart == -1 {
          acc := acc.(dataStart := pos + 8, dataSize := size);
        }
      }
      assert acc == Record(file, id, pos + 8, size, before);
      if chunkEnd > |file| { return Some(acc); }
      // a size of -8 or less would send the source's walk back: not modelled
      if chunkEnd <= pos { return None; }
      ScanStep(file, pos, before, chunkEnd, acc);
      pos := chunkEnd;
    }
    return Some(acc);
  }

  /**
   * The conversion loops of Load: `dataSize / width` samples, all zero when
   * the encoding is not converted; `None` when a read passes the end of the
   * file.
   */
  method ReadSamples(file: seq<Byte>, start: int, size: int, f: Format, single: seq<Byte> -> real)
    returns (r: Option<seq<real>>)
    requires 0 <= start <= |file| && size > 0 && f.bitsPerSample > 0 && Width(f) > 0
    ensures var n := size / Width(f);
      r == if Converts(f) && start + n * Width(f) > |file| then None
           else Some(Samples(file, start, n, f, single))
  {
    var width := f.bitsPerSample / 8;
    var n := size / width;
    if Converts(f) {
      r := Convert(file, start, size, n, f, single);
    } else {
      var data := new real[n](_ => 0.0);
      assert data[..] == Samples(file, start, n, f, single);
      r := Some(data[..]);
    }
  }

  /** One of the three `for` loops of Load, for a converted encoding. */
  method Convert(file: seq<Byte>, start: int, size: int, n: nat, f: Format, single: seq<Byte> -> real)
    returns (r: Option<seq<real>>)
    requires 0 <= start <= |file| && size > 0 && f.bitsPerSample > 0 && Width(f) > 0
    requires Converts(f) && n == size / Width(f)
    ensures r == if start + n * Width(f) > |file| then None else Some(Samples(file, start, n, f, single))
  {
    var width := f.bitsPerSample / 8;
    DivMul(size, width);
    var data := new real[n](_ => 0.0);
    for i := 0 to n
      invariant start + i * width <= |file|
      invariant data[..i] == Samples(file, start, i, f, single)
    {
      var at := start + i * width;
      MulMono(i + 1, n, width);
      MulStep(i, width);
      // the source's "cursor past the chunk" break cannot fire: i < size / width
      assert at < start + size;
      if at + width > |file| {
        return None;
      }
      data[i] := Sample(file, at, f, single);
      SamplesSnoc(file, start, i, f, single);
      assert data[..i + 1] == data[..i] + [data[i]];
    }
    assert data[..] == data[..n];
    r := Some(data[..]);
  }
}
