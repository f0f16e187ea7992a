/**
 * The audio effect's five-second pull: a processor fed five seconds of
 * silent stereo input at 44100 Hz is read in tenth-of-a-second buffers until
 * the input's length has been read, and what was read is saved as a WAV file.
 */
module PullTest {
  import opened Common
  import opened SilentStream
  import opened AudioEffect
  import Voices
  import FrameSync
  import WavWriter
  import Wav

  /**
   * Every read reports its `count`, so the loop ends with exactly the
   * input's `5 * 44100 * 2` samples; the file written holds all of them and
   * decodes to them, quantised to 16 bits, at 44100 Hz in stereo.
   */
  method PullFiveSeconds(filePath: string, engineStarts: bool, cam: Voices.Point,
                         accepts: string -> bool, totalFrame: seq<FrameSync.Call> -> int,
                         pow2: real -> real, sqrt: real -> real, single: seq<Byte> -> real)
    returns (hz: int, readTotal: int, samples: seq<real>, file: seq<Byte>)
    requires forall x :: pow2(x) > 0.0
    ensures hz == 44100
    ensures readTotal == 5 * 44100 * 2 && |samples| == readTotal
    ensures !engineStarts ==> forall i :: 0 <= i < |samples| ==> samples[i] == 0.0
    ensures |file| == 44 + 2 * readTotal
    ensures Wav.Decode(file, single) == Some(Wav.Sound(WavWriter.Quantised(samples), 2, 44100))
  {
    var source := new SilentSource(44100, 5.0);
    var processor := new AudioProcessor(5.0, accepts, totalFrame, pow2, sqrt, single);
    processor.SetInput(source);
    hz := processor.Hz();
    var buffer := new real[hz / 10 * 2];
    readTotal, samples := Pull(processor, source, buffer, filePath, engineStarts, cam);
    file := WavWriter.SaveWav(samples, hz, 2);
    WavWriter.RoundTrip(samples, hz, 2, single);
  }

  /**
   * Lines 39-54: read until the input's length has been read, keeping every
   * sample read. The item keeps its defaults, so it loops. When the renderer never starts, every read only clears its
   * window, so what is kept is silence.
   */
  method Pull(processor: AudioProcessor, source: SilentSource, buffer: array<real>,
              filePath: string, engineStarts: bool, cam: Voices.Point)
    returns (readTotal: int, samples: seq<real>)
    requires processor.Valid() && processor.input == source && source.hz == 44100
    requires processor.engine == null && processor.mixer == null
    requires source.length == 220500 && source.position == 0 && buffer.Length == 8820
    modifies processor, source, buffer
    ensures readTotal == 5 * 44100 * 2 && |samples| == readTotal
    ensures !engineStarts ==> forall i :: 0 <= i < |samples| ==> samples[i] == 0.0
  {
    var bufferSize := buffer.Length;
    var totalSamplesToRead := source.length * 2;
    readTotal := 0;
    samples := [];
    while readTotal < totalSamplesToRead
      invariant processor.Valid() && processor.input == source
      invariant 0 <= readTotal <= totalSamplesToRead && readTotal % 2 == 0
      invariant source.position == readTotal && |samples| == readTotal
      invariant processor.engine != null ==> fresh(processor.engine)
      invariant processor.mixer != null ==> fresh(processor.mixer)
      invariant !engineStarts ==> !processor.isInitialized && forall i :: 0 <= i < |samples| ==> samples[i] == 0.0
      decreases totalSamplesToRead - readTotal
    {
      var count := MinInt(bufferSize, totalSamplesToRead - readTotal);
      var readCount, window := ReadOnce(processor, source, buffer, count, Host(readTotal, filePath, true, cam, 100.0, engineStarts));
      if readCount == 0 {
        break;
      }
      samples := samples + window;
      readTotal := readTotal + readCount;
    }
  }

  /** Lines 45-52, one read into the start of the buffer: the samples it reports, silent while the renderer has not started. */
  method ReadOnce(processor: AudioProcessor, source: SilentSource, buffer: array<real>, count: int, host: Host)
    returns (readCount: int, window: seq<real>)
    requires processor.Valid() && processor.input == source
    requires 0 <= count <= buffer.Length && count % 2 == 0
    requires source.position + count <= 2 * source.length
    modifies processor, processor.engine, processor.mixer, source, buffer
    ensures processor.Valid() && processor.input == source
    ensures readCount == count && window == buffer[..count]
    ensures source.position == old(source.position) + count
    ensures processor.engine != old(processor.engine) ==> fresh(processor.engine)
    ensures processor.mixer != old(processor.mixer) ==> fresh(processor.mixer)
    ensures !old(processor.isInitialized) && !host.engineStarts ==>
      !processor.isInitialized && forall i :: 0 <= i < |window| ==> window[i] == 0.0
  {
    readCount := processor.Read(buffer, 0, count, host);
    window := buffer[..readCount];
  }
}
