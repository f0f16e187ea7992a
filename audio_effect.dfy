/**
 * `EffekseerAudioEffectProcessor`: on every read of the audio timeline it
 * keeps the effect engine at the frame matching the read position, lets the
 * sound mixer add the effect's sounds into the buffer, and applies the
 * item's master volume.
 */
module AudioEffect {
  import opened Common
  import opened FrameSync
  import opened EffectPath
  import opened Voices
  import Mixer
  import SilentStream

  /** C#'s `/ 2` on a `long`: halving truncated toward zero. */
  function Half(n: int): (h: int)
    ensures n >= 0 ==> 0 <= h && n == 2 * h + n % 2
    ensures n < 0 ==> h <= 0 && -n == -2 * h + (-n) % 2
  {
    if n >= 0 then n / 2 else -((-n) / 2)
  }

  /**
   * The effect frame a read at `position` (stereo samples) stands for, at 60
   * frames a second: `(Position / 2) / Hz * 60`.
   */
  function AudioTarget(position: int, hz: int): (t: real)
    requires hz > 0
    ensures position >= 0 ==> t >= 0.0
    ensures -1 <= position <= 1 ==> t == 0.0
  {
    Half(position) as real / hz as real * 60.0
  }

  /** One second of stereo input, `2 * Hz` samples, moves the target on by exactly 60 frames. */
  lemma OneSecondIsSixtyFrames(position: int, hz: int)
    requires hz > 0 && position >= 0
    ensures AudioTarget(position + 2 * hz, hz) == AudioTarget(position, hz) + 60.0
  {
    var h := Half(position);
    assert Half(position + 2 * hz) == h + hz;
    var a := h as real / hz as real;
    var b := (h + hz) as real / hz as real;
    assert h as real == a * hz as real;
    assert (h + hz) as real == b * hz as real;
    assert (b - a - 1.0) * hz as real == 0.0;
    ZeroFactor(b - a - 1.0, hz as real);
  }

  lemma ZeroFactor(x: real, m: real)
    requires m > 0.0 && x * m == 0.0
    ensures x == 0.0
  {
  }

  /**
   * A change of effect path: a non-empty path naming an effect file is
   * handed to the engine, and a successful load restarts the frame count; an
   * empty path resets the engine. Either way the path is recorded, so a
   * refused file is not offered again.
   */
  function FileChanged(t: Track, path: string, accepts: string -> bool): (r: Track)
    ensures r.loaded == Some(path)
    ensures t.loaded == Some(path) ==> r == t
    ensures t.loaded != Some(path) ==>
      r.current == if path == "" || (IsEffectFile(path) && accepts(path)) then 0.0 else t.current
    ensures t.loaded != Some(path) ==>
      r.trace == t.trace + if path == "" then [Call.Reset] else if IsEffectFile(path) then [Call.LoadEffect(path, accepts(path))] else []
  {
    if t.loaded == Some(path) then t
    else if path != "" then
      if IsEffectFile(path) then
        Track(Some(path), if accepts(path) then 0.0 else t.current, t.trace + [Call.LoadEffect(path, accepts(path))])
      else Track(Some(path), t.current, t.trace)
    else Track(Some(path), 0.0, t.trace + [Call.Reset])
  }

  /** No retry: once a path has been seen, seeing it again changes nothing, even when its load failed. */
  lemma FileSeenOnce(t: Track, path: string, accepts: string -> bool)
    ensures FileChanged(FileChanged(t, path, accepts), path, accepts) == FileChanged(t, path, accepts)
  {
  }

  /**
   * A change of file keeps the engine in step: a load that plays the new
   * effect from its first frame and a reset both restart the count at 0.
   */
  lemma FileChangedKeepsStep(t: Track, path: string, accepts: string -> bool)
    requires FrameSync.Clock(t.trace) == t.current
    ensures var r := FileChanged(t, path, accepts);
      FrameSync.Clock(r.trace) == r.current
  {
    if t.loaded != Some(path) {
      if path == "" {
        FrameSync.ClockAfterReset(t.trace);
      } else if IsEffectFile(path) {
        FrameSync.ClockAfterLoad(t.trace, path, accepts(path));
      }
    }
  }

  /**
   * With an effect path recorded, the target is folded into the effect's
   * length when looping, the engine is synchronised to it, and the camera is
   * placed; with none, nothing happens.
   */
  function Synchronised(t: Track, target: real, isLoop: bool, totalFrame: seq<Call> -> int, cam: Point): (r: Track)
    ensures r.loaded == t.loaded
    ensures t.loaded == None || t.loaded == Some("") ==> r == t
    ensures t.loaded.Some? && t.loaded.value != "" && target >= 0.0 ==>
      r.current == LoopTarget(target, totalFrame(t.trace), isLoop)
    ensures t.loaded.Some? && t.loaded.value != "" ==>
      |r.trace| > |t.trace| && r.trace[|r.trace| - 1] == Call.LookAt(cam.x, cam.y, cam.z)
  {
    if t.loaded.None? || t.loaded.value == "" then t
    else
      var s := SyncTrack(t, target, isLoop, totalFrame);
      s.(trace := s.trace + [Call.LookAt(cam.x, cam.y, cam.z)])
  }

  /** `Array.Clear` of the window: what the input left unwritten, or all of it. */
  function Zeroed(buf: seq<real>, offset: int, count: int): (r: seq<real>)
    ensures |r| == |buf|
    ensures forall i :: 0 <= i < |buf| ==> r[i] == if offset <= i < offset + count then 0.0 else buf[i]
  {
    seq(|buf|, i requires 0 <= i < |buf| => if offset <= i < offset + count then 0.0 else buf[i])
  }

  /** The window scaled by the master volume, the rest of the buffer as it was. */
  function Volumed(buf: seq<real>, offset: int, count: int, k: real): (r: seq<real>)
    ensures |r| == |buf|
    ensures forall i :: 0 <= i < |buf| ==> r[i] == if offset <= i < offset + count then buf[i] * k else buf[i]
  {
    seq(|buf|, i requires 0 <= i < |buf| => if offset <= i < offset + count then buf[i] * k else buf[i])
  }

  /** Full volume leaves the buffer as it is, so skipping the loop at exactly 1.0 changes nothing. */
  lemma UnitVolume(buf: seq<real>, offset: int, count: int)
    ensures Volumed(buf, offset, count, 1.0) == buf
  {
    assert forall i :: 0 <= i < |buf| ==> Volumed(buf, offset, count, 1.0)[i] == buf[i];
  }

  /** Lines 172-178: every sample of the window multiplied by the master volume. */
  method ApplyVolume(buffer: array<real>, offset: int, count: int, masterVol: real)
    requires 0 <= offset && 0 <= count && offset + count <= buffer.Length
    modifies buffer
    ensures buffer[..] == Volumed(old(buffer[..]), offset, count, masterVol)
  {
    for i := 0 to count
      invariant forall k :: 0 <= k < buffer.Length ==>
        buffer[k] == if offset <= k < offset + i then old(buffer[k]) * masterVol else old(buffer[k])
    {
      buffer[offset + i] := buffer[offset + i] * masterVol;
    }
    assert forall k :: 0 <= k < buffer.Length ==> buffer[..][k] == Volumed(old(buffer[..]), offset, count, masterVol)[k];
  }

  /** What the host supplies for one read: its position, the item's settings, and animated values there. */
  datatype Host = Host(
    position: int,          // samples already read, stereo
    filePath: string,       // item.FilePath
    isLoop: bool,           // item.IsLoop
    cam: Point,             // item.CamPosX/Y/Z at the position
    volume: real,           // item.Volume at the position, in percent
    engineStarts: bool)     // whether the native renderer initialises, when it is created

  class AudioProcessor {
    var input: SilentStream.SilentSource?
    var engine: Engine?
    var mixer: Mixer.SoundMixer?
    var loadedFilePath: Option<string>
    var currentFrame: real
    var isInitialized: bool
    /** The item's duration, in seconds. */
    const seconds: real
    const accepts: string -> bool
    const totalFrame: seq<Call> -> int
    const pow2: real -> real
    const sqrt: real -> real
    const single: seq<Byte> -> real

    /** The output rate is the input's, 44100 without input. */
    function Hz(): (hz: int)
      reads this, input
      ensures input == null ==> hz == 44100
    {
      if input != null then input.hz else 44100
    }

    /** The samples this effect outputs: the item's duration at `Hz`. */
    function Duration(): (n: int)
      reads this, input
      ensures seconds >= 0.0 && Hz() >= 0 ==> n >= 0
    {
      Trunc(seconds * Hz() as real)
    }

    /**
     * Initialisation succeeded exactly when a mixer exists; the mixer keeps
     * its own invariant; the frame count never drops below zero.
     */
    ghost predicate Valid()
      reads this, input, mixer
    {
      && (input != null ==> input.hz > 0)
      && (forall x :: pow2(x) > 0.0)
      && currentFrame >= 0.0
      && (isInitialized <==> mixer != null)
      && (isInitialized ==> engine != null && engine.starts)
      && (mixer != null ==> engine != null && mixer.Valid() && mixer.pow2 == pow2 && mixer.sqrt == sqrt)
      && (engine != null ==> engine.accepts == accepts && engine.totalFrame == totalFrame)
    }

    /** The synchronisation state, once an engine exists. */
    function State(): Track
      reads this, engine
      requires engine != null
    {
      Track(loadedFilePath, currentFrame, engine.trace)
    }

    constructor(seconds: real, accepts: string -> bool, totalFrame: seq<Call> -> int,
                pow2: real -> real, sqrt: real -> real, single: seq<Byte> -> real)
      requires forall x :: pow2(x) > 0.0
      ensures Valid()
      ensures input == null && engine == null && mixer == null && !isInitialized
      ensures loadedFilePath == None && currentFrame == 0.0
      ensures this.seconds == seconds && this.accepts == accepts && this.totalFrame == totalFrame
      ensures this.pow2 == pow2 && this.sqrt == sqrt && this.single == single
    {
      input := null;
      engine := null;
      mixer := null;
      loadedFilePath := None;
      currentFrame := 0.0;
      isInitialized := false;
      this.seconds := seconds;
      this.accepts := accepts;
      this.totalFrame := totalFrame;
      this.pow2 := pow2;
      this.sqrt := sqrt;
      this.single := single;
    }

    /** `processor.Input = source`. */
    method SetInput(source: SilentStream.SilentSource)
      requires Valid() && source.hz > 0
      modifies this
      ensures Valid() && input == source
      ensures engine == old(engine) && mixer == old(mixer) && isInitialized == old(isInitialized)
      ensures loadedFilePath == old(loadedFilePath) && currentFrame == old(currentFrame)
    {
      input := source;
    }

    /**
     * Creates the renderer; when it starts, creates the mixer at the output
     * rate and points the camera from `(0, 0, 20)`. A renderer that fails to
     * start stays, without a mixer, and the next read tries again.
     */
    method Initialize(starts: bool)
      requires Valid()
      modifies this
      ensures Valid()
      ensures old(isInitialized) ==> engine == old(engine) && mixer == old(mixer) && isInitialized
      ensures !old(isInitialized) ==> fresh(engine) && engine.trace == (if starts then [Call.LookAt(0.0, 0.0, 20.0)] else [])
      ensures !old(isInitialized) ==> isInitialized == starts
      ensures !old(isInitialized) && starts ==>
        fresh(mixer) && mixer.voices == [] && mixer.listener == Point(0.0, 0.0, 20.0) && mixer.outputSampleRate == Hz()
      ensures input == old(input) && loadedFilePath == old(loadedFilePath) && currentFrame == old(currentFrame)
    {
      if isInitialized {
        return;
      }
      var e := new Engine(starts, accepts, totalFrame);
      engine := e;
      var ok := e.Initialize();
      if !ok {
        return;
      }
      var m := new Mixer.SoundMixer(Hz(), pow2, sqrt, single);
      mixer := m;
      e.SetCameraLookAt(0.0, 0.0, 20.0);
      isInitialized := true;
    }

    /** Lines 79-85: the input writes what it has, and the rest of the window is cleared. */
    method FillFromInput(dest: array<real>, offset: int, count: int) returns (readCount: int)
      requires Valid() && 0 <= offset && 0 <= count && offset + count <= dest.Length
      requires input != null ==> input.position <= 2 * input.length
      modifies input, dest
      ensures dest[..] == Zeroed(old(dest[..]), offset, count)
      ensures 0 <= readCount <= count
      ensures input == null ==> readCount == 0
      ensures input != null ==> input.position == old(input.position) + readCount
      ensures input != null ==> readCount == MinInt(count, old(input.Remaining()))
    {
      readCount := 0;
      if input != null {
        readCount := input.Read(dest, offset, count);
      }
      if readCount < count {
        forall i | offset + readCount <= i < offset + count {
          dest[i] := 0.0;
        }
      }
    }

    /** Lines 104-121. */
    method CheckFile(path: string)
      requires engine != null && engine.starts && engine.accepts == accepts
      modifies this, engine
      ensures engine == old(engine) && State() == FileChanged(old(State()), path, accepts)
      ensures input == old(input) && mixer == old(mixer) && isInitialized == old(isInitialized)
    {
      if loadedFilePath != Some(path) {
        if path != "" {
          if IsEffectFile(path) {
            var ok := engine.LoadEffect(path);
            if ok {
              loadedFilePath := Some(path);
              currentFrame := 0.0;
            }
          }
        } else {
          engine.Reset();
          currentFrame := 0.0;
        }
        loadedFilePath := Some(path);
      }
    }

    /** Lines 123-158: the loop fold, the rewind or step, the camera and the mixer's listener. */
    method SyncTimeline(target: real, isLoop: bool, cam: Point)
      requires engine != null && engine.starts && engine.totalFrame == totalFrame && mixer != null && mixer.Valid()
      modifies this, engine, mixer
      ensures engine == old(engine) && State() == Synchronised(old(State()), target, isLoop, totalFrame, cam)
      ensures mixer == old(mixer) && mixer.Valid()
      ensures mixer.listener == if loadedFilePath.Some? && loadedFilePath.value != "" then cam else old(mixer.listener)
      ensures mixer.voices == old(mixer.voices)
      ensures input == old(input) && isInitialized == old(isInitialized)
    {
      if loadedFilePath.Some? && loadedFilePath.value != "" {
        var totalFrames := engine.GetTotalFrame();
        var goal := LoopTarget(target, totalFrames, isLoop);
        currentFrame := Sync(engine, currentFrame, goal);
        engine.SetCameraLookAt(cam.x, cam.y, cam.z);
        mixer.SetListenerPosition(cam.x, cam.y, cam.z);
      }
    }

    /** Lines 104-158: follow the item's file, then the timeline. */
    method Follow(host: Host)
      requires Valid() && isInitialized
      modifies this, engine, mixer
      ensures Valid() && isInitialized
      ensures input == old(input) && engine == old(engine) && mixer == old(mixer)
      ensures State() == Synchronised(FileChanged(old(State()), host.filePath, accepts),
                                      AudioTarget(host.position, Hz()), host.isLoop, totalFrame, host.cam)
      ensures mixer.listener == if host.filePath != "" then host.cam else old(mixer.listener)
      ensures mixer.voices == old(mixer.voices)
    {
      var target := AudioTarget(host.position, Hz());
      CheckFile(host.filePath);
      SyncTimeline(target, host.isLoop, host.cam);
    }

    /** Lines 160-178: the mixer adds the effect's sounds, then the master volume applies. */
    method Sound(dest: array<real>, offset: int, count: int, volume: real, ghost before: seq<real>, ghost voices: seq<Voice>)
      requires Valid() && isInitialized
      requires 0 <= offset && 0 <= count && offset + count <= dest.Length
      requires Window(dest.Length, offset, count)
      requires dest[..] == before && mixer.voices == voices
      modifies mixer, dest
      ensures Valid()
      ensures Mixed(before, offset, count, voices, mixer.listener, mixer.outputSampleRate, pow2, sqrt,
                    volume, dest[..], mixer.voices)
      ensures mixer.listener == old(mixer.listener)
    {
      mixer.Mix(dest, offset, count);
      var masterVol := volume / 100.0;
      if masterVol != 1.0 {
        ApplyVolume(dest, offset, count, masterVol);
      } else {
        UnitVolume(dest[..], offset, count);
      }
    }

    /** Lines 95-178 once the engine runs. */
    method Process(dest: array<real>, offset: int, count: int, host: Host)
      requires Valid() && isInitialized
      requires 0 <= offset && 0 <= count && offset + count <= dest.Length
      requires Window(dest.Length, offset, count)
      modifies this, engine, mixer, dest
      ensures Valid() && isInitialized
      ensures input == old(input) && engine == old(engine) && mixer == old(mixer)
      ensures State() == Synchronised(FileChanged(old(State()), host.filePath, accepts),
                                      AudioTarget(host.position, Hz()), host.isLoop, totalFrame, host.cam)
      ensures mixer.listener == if host.filePath != "" then host.cam else old(mixer.listener)
      ensures Mixed(old(dest[..]), offset, count, old(mixer.voices), mixer.listener, mixer.outputSampleRate, pow2, sqrt,
                    host.volume, dest[..], mixer.voices)
    {
      ghost var before, voices := dest[..], mixer.voices;
      Follow(host);
      Sound(dest, offset, count, host.volume, before, voices);
    }

    /**
     * One read of `count` samples at `offset`: fill from the input, start the
     * engine if need be, then process the window. Always reports `count`.
     */
    method Read(dest: array<real>, offset: int, count: int, host: Host) returns (n: int)
      requires Valid()
      requires 0 <= offset && 0 <= count && offset + count <= dest.Length
      requires Window(dest.Length, offset, count)
      requires input != null ==> input.position <= 2 * input.length
      modifies this, engine, mixer, input, dest
      ensures Valid() && n == count
      ensures input == old(input)
      ensures isInitialized == (old(isInitialized) || host.engineStarts)
      ensures old(isInitialized) ==> engine == old(engine) && mixer == old(mixer)
      ensures engine != old(engine) ==> fresh(engine)
      ensures mixer != old(mixer) ==> fresh(mixer)
      ensures input != null ==> input.position == old(input.position) + MinInt(count, old(input.Remaining()))
      ensures !isInitialized ==>
        dest[..] == Zeroed(old(dest[..]), offset, count)
        && loadedFilePath == old(loadedFilePath) && currentFrame == old(currentFrame)
      ensures isInitialized ==>
        State() == Synchronised(FileChanged(Started(old(isInitialized), old(loadedFilePath), old(currentFrame), old(if engine != null then engine.trace else [])), host.filePath, accepts),
                                AudioTarget(host.position, Hz()), host.isLoop, totalFrame, host.cam)
      ensures isInitialized ==>
        var listener := if host.filePath != "" then host.cam
                        else if old(isInitialized) then old(mixer.listener) else Point(0.0, 0.0, 20.0);
        Mixed(Zeroed(old(dest[..]), offset, count), offset, count,
              if old(isInitialized) then old(mixer.voices) else [],
              listener, mixer.outputSampleRate, pow2, sqrt, host.volume, dest[..], mixer.voices)
    {
      var readCount := FillFromInput(dest, offset, count);
      if !isInitialized {
        Initialize(host.engineStarts);
      }
      if !isInitialized {
        return count;
      }
      Process(dest, offset, count, host);
      return count;
    }

    /**
     * Lines 57-73: the input moves to frame `position`, and the engine
     * restarts and replays the recorded effect from its first frame;
     * `currentFrame` and the recorded path stay as they were.
     */
    method Seek(position: int)
      requires Valid()
      modifies input, engine
      ensures Valid()
      ensures input != null ==> input.position == 2 * position
      ensures engine != null ==> engine.trace == old(engine.trace) + SeekCalls(loadedFilePath)
    {
      if input != null {
        input.Seek(position);
      }
      if engine != null {
        engine.Reset();
        if loadedFilePath.Some? && loadedFilePath.value != "" {
          engine.PlayEffect(loadedFilePath.value);
        }
      }
    }
  }

  /**
   * The mixing step of a read: the voices' sounds added into the window of
   * `before`, the window scaled by `volume` percent, giving `after`; the
   * voices still playing, in order, are `survivors`.
   */
  ghost predicate Mixed(before: seq<real>, offset: int, count: int, voices: seq<Voice>, listener: Point,
                        outputRate: int, pow2: real -> real, sqrt: real -> real, volume: real,
                        after: seq<real>, survivors: seq<Voice>)
  {
    && Window(|before|, offset, count) && outputRate > 0 && (forall x :: pow2(x) > 0.0)
    && (forall i :: 0 <= i < |voices| ==> VoiceOk(voices[i]))
    && var mixed := Mixer.MixVoices(before, offset, count, voices, listener, outputRate, pow2, sqrt);
    && after == Volumed(mixed.0, offset, count, volume / 100.0)
    && survivors == Mixer.Survivors(mixed.1)
  }

  /** The state a read starts from: the engine's calls so far, or those of a renderer just started. */
  function Started(wasInitialized: bool, loaded: Option<string>, current: real, trace: seq<Call>): Track
  {
    Track(loaded, current, if wasInitialized then trace else [Call.LookAt(0.0, 0.0, 20.0)])
  }

  /**
   * Lines 57-73: the calls a seek makes. The engine is rewound and the
   * effect already loaded, if any, is played again from its start.
   */
  function SeekCalls(loaded: Option<string>): (calls: seq<Call>)
    ensures 1 <= |calls| <= 2 && calls[0] == Call.Reset
    ensures |calls| == 2 <==> loaded.Some? && loaded.value != ""
    ensures |calls| == 2 ==> calls[1] == Call.PlayEffect(loaded.value)
  {
    [Call.Reset] + if loaded.Some? && loaded.value != "" then [Call.PlayEffect(loaded.value)] else []
  }

  /** After a seek the engine's frame counter is back at 0, wherever it stood. */
  lemma SeekRestartsClock(trace: seq<Call>, loaded: Option<string>)
    ensures FrameSync.Clock(trace + SeekCalls(loaded)) == 0.0
  {
    FrameSync.ClockAfterReset(trace);
    if loaded.Some? && loaded.value != "" {
      var p := Call.PlayEffect(loaded.value);
      FrameSync.ClockAfterPlay(trace + [Call.Reset], loaded.value);
      assert trace + SeekCalls(loaded) == trace + [Call.Reset] + [p];
    } else {
      assert trace + SeekCalls(loaded) == trace + [Call.Reset];
    }
  }

  /**
   * A seek keeps `currentFrame`, so a following read that moves forward to
   * `target` steps the restarted effect only by `target - current`: playback
   * restarts from the effect's head rather than at the timeline position.
   */
  lemma SeekThenForward(trace: seq<Call>, loaded: Option<string>, current: real, target: real)
    requires 0.0 <= current <= target
    ensures FrameSync.Clock(trace + SeekCalls(loaded) + FrameSync.SyncCalls(current, target)) == target - current
  {
    var seeked := trace + SeekCalls(loaded);
    SeekRestartsClock(trace, loaded);
    if target > current {
      FrameSync.ClockAfterUpdate(seeked, target - current);
      assert FrameSync.SyncCalls(current, target) == [Call.Update(target - current)];
    } else {
      assert seeked + FrameSync.SyncCalls(current, target) == seeked;
    }
  }

  function MinInt(a: int, b: int): int
  {
    if a <= b then a else b
  }
}
