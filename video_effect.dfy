/**
 * `EffekseerVideoEffectProcessor.Update`, without the drawing: the early
 * return without input, the render size, creating the renderer on the first
 * call, following the item's file, and keeping the engine at the item's
 * frame. It shares the rewind-or-step rule with the audio adapter but
 * differs in how it follows the file and in syncing with no file loaded.
 */
module VideoEffect {
  import opened Common
  import opened FrameSync
  import opened EffectPath
  import Voices
  import AudioEffect

  /** What the host supplies for one update: the item's settings and the frame being drawn. */
  datatype Request = Request(
    filePath: string,         // item.FilePath
    isLoop: bool,             // item.IsLoop
    isScreenSize: bool,       // item.IsScreenSize
    screenWidth: real,        // ScreenSize.Width
    screenHeight: real,       // ScreenSize.Height
    boundsWidth: real,        // input image bounds, Right - Left
    boundsHeight: real,       // input image bounds, Bottom - Top
    frame: int,               // ItemPosition.Frame
    fps: real,                // FPS
    cam: Voices.Point,        // item.CamPosX/Y/Z at the folded target frame
    engineStarts: bool)       // whether the native renderer initialises, when it is created

  /** How an update ended: no input, the renderer did not start, the effect's duration overflowed, or brought to the frame. */
  datatype Outcome = Skipped | InitFailed | DurationOverflow | Updated

  /** `(int)Math.Max(1, x)`: never below one pixel. */
  function Extent(x: real): (n: int)
    ensures n >= 1
    ensures x >= 1.0 ==> n as real <= x < n as real + 1.0
    ensures x < 2.0 ==> n == 1
  {
    Trunc(MaxReal(1.0, x))
  }

  /** The render size: the screen's, or the input image's bounds. */
  function Size(r: Request): (size: (int, int))
    ensures size.0 >= 1 && size.1 >= 1
  {
    if r.isScreenSize then (Extent(r.screenWidth), Extent(r.screenHeight))
    else (Extent(r.boundsWidth), Extent(r.boundsHeight))
  }

  const TICKS_PER_SECOND: real := 10000000.0
  const LONG_MAX: int := 0x7FFF_FFFF_FFFF_FFFF

  /**
   * `TimeSpan.FromSeconds(frames / fps)` in ticks: the seconds scaled to
   * ticks and truncated, or nothing when the ticks leave the range of a
   * `long` (a division by a zero rate counts as infinitely long).
   */
  function Ticks(frames: int, fps: real): (r: Option<int>)
    ensures r.None? <==> fps == 0.0 || frames as real / fps * TICKS_PER_SECOND > LONG_MAX as real
                         || frames as real / fps * TICKS_PER_SECOND < -(LONG_MAX + 1) as real
    ensures r.Some? ==> -LONG_MAX - 1 <= r.value <= LONG_MAX
    ensures r.Some? && frames > 0 && fps > 0.0 ==>
      0 <= r.value && r.value as real <= frames as real / fps * TICKS_PER_SECOND < r.value as real + 1.0
  {
    if fps == 0.0 then None
    else
      var t := frames as real / fps * TICKS_PER_SECOND;
      if t > LONG_MAX as real || t < -(LONG_MAX + 1) as real then None else Some(Trunc(t))
  }

  /** Whether following `path` loads it now: a new, non-empty effect file the engine accepts. */
  predicate LoadsNow(t: Track, path: string, accepts: string -> bool)
    ensures LoadsNow(t, path, accepts) <==> t.loaded != Some(path) && IsEffectFile(path) && accepts(path)
  {
    t.loaded != Some(path) && path != "" && IsEffectFile(path) && accepts(path)
  }

  /**
   * Lines 132-154, the track part: a new effect file is offered to the
   * engine and recorded only when it loads; an empty path is recorded
   * without a rewind. A load restarts the frame count at 0, as the engine
   * restarts the new effect; the source keeps the count (`KeptFrame`).
   */
  function FileTaken(t: Track, path: string, accepts: string -> bool): (r: Track)
    ensures r.current == if LoadsNow(t, path, accepts) then 0.0 else t.current
    ensures t.loaded == Some(path) ==> r == t
    ensures r.loaded == if LoadsNow(t, path, accepts) || path == "" then Some(path) else t.loaded
    ensures t.loaded != Some(path) ==>
      r.trace == t.trace + if path != "" && IsEffectFile(path) then [Call.LoadEffect(path, accepts(path))] else []
  {
    if t.loaded == Some(path) then t
    else if path != "" then
      if IsEffectFile(path) then
        if accepts(path) then Track(Some(path), 0.0, t.trace + [Call.LoadEffect(path, true)])
        else Track(t.loaded, t.current, t.trace + [Call.LoadEffect(path, false)])
      else t
    else Track(Some(path), t.current, t.trace)
  }

  /**
   * Lines 137-148 as written: the track after following `path` keeps
   * `currentFrame` through a load, though the engine plays the new effect
   * from its first frame.
   */
  function KeptFrame(t: Track, path: string, accepts: string -> bool): (r: Track)
    ensures r.current == t.current
    ensures r.loaded == FileTaken(t, path, accepts).loaded && r.trace == FileTaken(t, path, accepts).trace
  {
    FileTaken(t, path, accepts).(current := t.current)
  }

  /**
   * Lines 141-147: after a load, the duration becomes the effect's length in
   * seconds at `fps` when that length is in `(0, int.MaxValue)`; `None` when
   * that conversion overflows.
   */
  function DurationAfter(t: Track, path: string, accepts: string -> bool,
                         totalFrame: seq<Call> -> int, fps: real, ticks: int): (r: Option<int>)
    ensures !LoadsNow(t, path, accepts) ==> r == Some(ticks)
    ensures LoadsNow(t, path, accepts) ==>
      var n := totalFrame(t.trace + [Call.LoadEffect(path, true)]);
      r == if 0 < n < INT_MAX then Ticks(n, fps) else Some(ticks)
  {
    if LoadsNow(t, path, accepts) then
      var n := totalFrame(t.trace + [Call.LoadEffect(path, true)]);
      if 0 < n < INT_MAX then Ticks(n, fps) else Some(ticks)
    else Some(ticks)
  }

  /** Lines 157-193: synchronise to the item's frame, with or without a file, then place the camera. */
  function Tracked(t: Track, frame: int, isLoop: bool, totalFrame: seq<Call> -> int, cam: Voices.Point): (r: Track)
    ensures r.loaded == t.loaded
    ensures |t.trace| < |r.trace| <= |t.trace| + 3 && r.trace[..|t.trace|] == t.trace
    ensures r.trace[|r.trace| - 1] == Call.LookAt(cam.x, cam.y, cam.z)
  {
    var s := SyncTrack(t, frame as real, isLoop, totalFrame);
    s.(trace := s.trace + [Call.LookAt(cam.x, cam.y, cam.z)])
  }

  /**
   * A refused effect file is offered again on the next update, and is still
   * not recorded, unlike the audio adapter, which records it and gives up.
   */
  lemma RefusedFileRetried(t: Track, path: string, accepts: string -> bool)
    requires t.loaded != Some(path) && path != "" && IsEffectFile(path) && !accepts(path)
    ensures var once := FileTaken(t, path, accepts);
      && once.loaded == t.loaded
      && FileTaken(once, path, accepts).trace == t.trace + [Call.LoadEffect(path, false), Call.LoadEffect(path, false)]
    ensures AudioEffect.FileChanged(AudioEffect.FileChanged(t, path, accepts), path, accepts).trace
            == t.trace + [Call.LoadEffect(path, false)]
  {
    var refused := Call.LoadEffect(path, false);
    assert t.trace + [refused] + [refused] == t.trace + [refused, refused];
  }

  /**
   * As written, a load keeps the adapter's count where it was; the audio
   * adapter restarts it at 0, and so does the corrected track.
   */
  lemma LoadKeepsFrame(t: Track, path: string, accepts: string -> bool)
    requires LoadsNow(t, path, accepts)
    ensures KeptFrame(t, path, accepts).current == t.current
    ensures KeptFrame(t, path, accepts).loaded == Some(path)
    ensures FileTaken(t, path, accepts).current == 0.0
    ensures AudioEffect.FileChanged(t, path, accepts).current == 0.0
  {
  }

  /**
   * As written, a file change at frame `F > 0` leaves the effect behind:
   * the engine plays the new effect from its first frame while the adapter
   * still counts `F`, so the next update, to a later frame, steps the effect
   * only to `frame - F`.
   */
  lemma KeptFrameDesyncs(t: Track, path: string, accepts: string -> bool,
                         totalFrame: seq<Call> -> int, frame: int, cam: Voices.Point)
    requires Clock(t.trace) == t.current && LoadsNow(t, path, accepts) && 0.0 < t.current <= frame as real
    ensures var r := Tracked(KeptFrame(t, path, accepts), frame, false, totalFrame, cam);
      && r.current == frame as real
      && Clock(r.trace) == frame as real - t.current < r.current
  {
    var kept := KeptFrame(t, path, accepts);
    ClockAfterLoad(t.trace, path, true);
    var s := SyncTrack(kept, frame as real, false, totalFrame);
    if frame as real > t.current {
      assert s.trace == kept.trace + [Call.Update(frame as real - t.current)];
      ClockAfterUpdate(kept.trace, frame as real - t.current);
    } else {
      assert s.trace == kept.trace + [];
    }
    ClockAfterOther(s.trace, Call.LookAt(cam.x, cam.y, cam.z));
  }

  /** Corrected, following a file keeps the engine in step: a load restarts both the effect and the count. */
  lemma TakenKeepsStep(t: Track, path: string, accepts: string -> bool)
    requires Clock(t.trace) == t.current
    ensures var r := FileTaken(t, path, accepts);
      Clock(r.trace) == r.current
  {
    if t.loaded != Some(path) && path != "" && IsEffectFile(path) {
      ClockAfterLoad(t.trace, path, accepts(path));
    }
  }

  /**
   * Corrected, a whole update keeps the engine in step: after following the
   * file and the frame, the effect stands at the folded item frame.
   */
  lemma UpdateKeepsStep(t: Track, path: string, accepts: string -> bool,
                        frame: int, isLoop: bool, totalFrame: seq<Call> -> int, cam: Voices.Point)
    requires Clock(t.trace) == t.current && frame >= 0
    ensures var taken := FileTaken(t, path, accepts);
      var r := Tracked(taken, frame, isLoop, totalFrame, cam);
      && r.current == LoopTarget(frame as real, totalFrame(taken.trace), isLoop)
      && Clock(r.trace) == r.current
  {
    var taken := FileTaken(t, path, accepts);
    TakenKeepsStep(t, path, accepts);
    TrackedReachesFrame(taken, frame, isLoop, totalFrame, cam);
  }

  /** An empty path is recorded here without a rewind; the audio adapter resets the engine. */
  lemma EmptyPathQuiet(t: Track, accepts: string -> bool)
    requires t.loaded != Some("")
    ensures FileTaken(t, "", accepts) == Track(Some(""), t.current, t.trace)
    ensures AudioEffect.FileChanged(t, "", accepts).trace == t.trace + [Call.Reset]
  {
  }

  /**
   * The engine follows the item's frame even with no file loaded, where the
   * audio adapter does nothing; either way the frame reached is the folded
   * target, and an engine whose counter showed the current frame shows it
   * afterwards.
   */
  lemma TrackedReachesFrame(t: Track, frame: int, isLoop: bool, totalFrame: seq<Call> -> int, cam: Voices.Point)
    requires frame >= 0
    ensures var r := Tracked(t, frame, isLoop, totalFrame, cam);
      && r.loaded == t.loaded
      && r.current == LoopTarget(frame as real, totalFrame(t.trace), isLoop)
      && (Clock(t.trace) == t.current ==> Clock(r.trace) == r.current)
  {
    var s := SyncTrack(t, frame as real, isLoop, totalFrame);
    if Clock(t.trace) == t.current {
      SyncTrackKeepsClock(t, frame as real, isLoop, totalFrame);
      ClockAfterOther(s.trace, Call.LookAt(cam.x, cam.y, cam.z));
    }
  }

  /** With no file loaded, a frame ahead of the current one still steps the engine. */
  lemma SyncsWithoutFile(t: Track, frame: int, isLoop: bool, totalFrame: seq<Call> -> int, cam: Voices.Point)
    requires t.loaded == None && 0.0 <= t.current < frame as real && !isLoop
    ensures Call.Update(frame as real - t.current) in Tracked(t, frame, isLoop, totalFrame, cam).trace
    ensures AudioEffect.Synchronised(t, frame as real, isLoop, totalFrame, cam) == t
  {
    var s := SyncTrack(t, frame as real, isLoop, totalFrame);
    assert s.trace == t.trace + [Call.Update(frame as real - t.current)];
    assert s.trace[|t.trace|] == Call.Update(frame as real - t.current);
    assert Tracked(t, frame, isLoop, totalFrame, cam).trace[|t.trace|] == s.trace[|t.trace|];
  }

  /**
   * A renderer that did not start is kept (lines 122-125) and driven on every
   * update: each one offers the effect file again and records nothing, the
   * duration stays, and the frame reached is the item's own, unfolded, since
   * the renderer reports no length.
   */
  lemma FailedRendererRetries(t: Track, path: string, accepts: string -> bool, totalFrame: seq<Call> -> int,
                              fps: real, ticks: int, frame: int, isLoop: bool, cam: Voices.Point)
    requires t.loaded != Some(path) && path != "" && IsEffectFile(path) && frame >= 0
    ensures var loads, frames := EngineAccepts(false, accepts), EngineFrames(false, totalFrame);
      var once := FileTaken(t, path, loads);
      && !LoadsNow(t, path, loads)
      && once == Track(t.loaded, t.current, t.trace + [Call.LoadEffect(path, false)])
      && DurationAfter(t, path, loads, frames, fps, ticks) == Some(ticks)
      && Tracked(once, frame, isLoop, frames, cam).current == frame as real
  {
    var loads, frames := EngineAccepts(false, accepts), EngineFrames(false, totalFrame);
    var once := FileTaken(t, path, loads);
    TrackedReachesFrame(once, frame, isLoop, frames, cam);
  }

  class VideoProcessor {
    var hasInput: bool
    var isFirst: bool
    var engine: Engine?
    var lastWidth: int
    var lastHeight: int
    /** The size the render targets were last created for, if they were. */
    var resources: Option<(int, int)>
    var loadedFilePath: Option<string>
    var currentFrame: real
    /** `_duration`, in ticks of 100 ns. */
    var durationTicks: int
    const accepts: string -> bool
    const totalFrame: seq<Call> -> int

    /**
     * The renderer exists exactly after the first update with input; the
     * render targets, when there are any, have the last size seen; the frame
     * count never drops below zero.
     */
    ghost predicate Valid()
      reads this, engine
    {
      && currentFrame >= 0.0
      && (isFirst <==> engine == null)
      && (isFirst ==> resources == None)
      && (engine != null ==> engine.accepts == accepts && engine.totalFrame == totalFrame)
      && (resources.Some? ==> resources.value == (lastWidth, lastHeight) && lastWidth >= 1 && lastHeight >= 1)
    }

    function State(): Track
      reads this, engine
      requires engine != null
    {
      Track(loadedFilePath, currentFrame, engine.trace)
    }

    constructor(accepts: string -> bool, totalFrame: seq<Call> -> int)
      ensures Valid()
      ensures !hasInput && isFirst && engine == null && lastWidth == 0 && lastHeight == 0 && resources == None
      ensures loadedFilePath == None && currentFrame == 0.0 && durationTicks == 0
      ensures this.accepts == accepts && this.totalFrame == totalFrame
    {
      hasInput := false;
      isFirst := true;
      engine := null;
      lastWidth, lastHeight := 0, 0;
      resources := None;
      loadedFilePath := None;
      currentFrame := 0.0;
      durationTicks := 0;
      this.accepts := accepts;
      this.totalFrame := totalFrame;
    }

    method SetInput()
      modifies this
      ensures hasInput
      ensures isFirst == old(isFirst) && engine == old(engine) && resources == old(resources)
      ensures lastWidth == old(lastWidth) && lastHeight == old(lastHeight)
      ensures loadedFilePath == old(loadedFilePath) && currentFrame == old(currentFrame) && durationTicks == old(durationTicks)
    {
      hasInput := true;
    }

    method ClearInput()
      modifies this
      ensures !hasInput
      ensures isFirst == old(isFirst) && engine == old(engine) && resources == old(resources)
      ensures lastWidth == old(lastWidth) && lastHeight == old(lastHeight)
      ensures loadedFilePath == old(loadedFilePath) && currentFrame == old(currentFrame) && durationTicks == old(durationTicks)
    {
      hasInput := false;
    }

    /**
     * Lines 108-130: record a new size, rebuilding the render targets only
     * after the first update; on the first update create the renderer and,
     * when it starts, the render targets. `false` when it does not start.
     */
    method Prepare(size: (int, int), starts: bool) returns (ok: bool)
      requires Valid() && size.0 >= 1 && size.1 >= 1
      modifies this
      ensures Valid() && !isFirst && engine != null
      ensures (lastWidth, lastHeight) == size
      ensures old(isFirst) ==> fresh(engine) && engine.trace == [] && engine.starts == starts && ok == starts
      ensures old(isFirst) ==> resources == if starts then Some(size) else None
      ensures !old(isFirst) ==> engine == old(engine) && ok
      ensures !old(isFirst) ==> resources == if size != (old(lastWidth), old(lastHeight)) then Some(size) else old(resources)
      ensures hasInput == old(hasInput) && loadedFilePath == old(loadedFilePath)
      ensures currentFrame == old(currentFrame) && durationTicks == old(durationTicks)
    {
      ok := true;
      if lastWidth != size.0 || lastHeight != size.1 {
        lastWidth, lastHeight := size.0, size.1;
        if !isFirst {
          resources := Some(size);
        }
      }
      if isFirst {
        isFirst := false;
        var e := new Engine(starts, accepts, totalFrame);
        engine := e;
        ok := e.Initialize();
        if ok {
          resources := Some(size);
        }
      }
    }

    /** Lines 132-154: follow the item's file; `false` when the new duration overflows. */
    method TakeFile(path: string, fps: real) returns (ok: bool)
      requires Valid() && !isFirst
      modifies this, engine
      ensures Valid() && !isFirst && engine == old(engine)
      ensures State() == FileTaken(old(State()), path, EngineAccepts(engine.starts, accepts))
      ensures var d := DurationAfter(old(State()), path, EngineAccepts(engine.starts, accepts),
                                     EngineFrames(engine.starts, totalFrame), fps, old(durationTicks));
        ok == d.Some? && durationTicks == if ok then d.value else old(durationTicks)
      ensures hasInput == old(hasInput) && resources == old(resources)
      ensures lastWidth == old(lastWidth) && lastHeight == old(lastHeight)
    {
      ok := true;
      if loadedFilePath != Some(path) {
        if path != "" {
          if IsEffectFile(path) {
            ok := LoadFile(path, fps);
          }
        } else {
          loadedFilePath := Some(path);
        }
      }
    }

    /** Lines 137-147: offer a new effect file to the engine; on success record it, restart the count and take its duration. */
    method LoadFile(path: string, fps: real) returns (ok: bool)
      requires Valid() && !isFirst && loadedFilePath != Some(path) && path != "" && IsEffectFile(path)
      modifies this, engine
      ensures Valid() && !isFirst && engine == old(engine)
      ensures State() == FileTaken(old(State()), path, EngineAccepts(engine.starts, accepts))
      ensures var d := DurationAfter(old(State()), path, EngineAccepts(engine.starts, accepts),
                                     EngineFrames(engine.starts, totalFrame), fps, old(durationTicks));
        ok == d.Some? && durationTicks == if ok then d.value else old(durationTicks)
      ensures hasInput == old(hasInput) && resources == old(resources)
      ensures lastWidth == old(lastWidth) && lastHeight == old(lastHeight)
    {
      ok := true;
      ghost var t, loads := State(), EngineAccepts(engine.starts, accepts);
      var loaded := engine.LoadEffect(path);
      assert loaded == LoadsNow(t, path, loads) && engine.trace == t.trace + [Call.LoadEffect(path, loaded)];
      if loaded {
        loadedFilePath := Some(path);
        currentFrame := 0.0;
        var tFrames := engine.GetTotalFrame();
        if 0 < tFrames < INT_MAX {
          var ticks := Ticks(tFrames, fps);
          if ticks.None? {
            return false;
          }
          durationTicks := ticks.value;
        }
      }
    }

    /** Lines 157-193: fold, rewind or step, and point the camera. */
    method Follow(frame: int, isLoop: bool, cam: Voices.Point)
      requires Valid() && !isFirst
      modifies this, engine
      ensures Valid() && !isFirst && engine == old(engine)
      ensures State() == Tracked(old(State()), frame, isLoop, EngineFrames(engine.starts, totalFrame), cam)
      ensures hasInput == old(hasInput) && resources == old(resources) && durationTicks == old(durationTicks)
      ensures lastWidth == old(lastWidth) && lastHeight == old(lastHeight)
    {
      var totalFrames := engine.GetTotalFrame();
      var target := LoopTarget(frame as real, totalFrames, isLoop);
      currentFrame := Sync(engine, currentFrame, target);
      engine.SetCameraLookAt(cam.x, cam.y, cam.z);
    }

    /**
     * One update. Without input nothing happens. Otherwise the size is
     * recorded, the renderer is created on the first call (an update whose
     * renderer does not start ends there), the item's file is followed and
     * the engine is brought to the item's frame.
     */
    method Update(req: Request) returns (outcome: Outcome)
      requires Valid()
      modifies this, engine
      ensures Valid()
      ensures hasInput == old(hasInput)
      ensures !old(hasInput) ==>
        && outcome == Skipped && isFirst == old(isFirst) && engine == old(engine)
        && (old(engine) != null ==> engine.trace == old(engine.trace))
        && lastWidth == old(lastWidth) && lastHeight == old(lastHeight) && resources == old(resources)
        && loadedFilePath == old(loadedFilePath) && currentFrame == old(currentFrame) && durationTicks == old(durationTicks)
      ensures old(hasInput) ==> !isFirst && engine != null && (lastWidth, lastHeight) == Size(req)
      ensures old(hasInput) && old(isFirst) ==> fresh(engine) && resources == if req.engineStarts then Some(Size(req)) else None
      ensures old(hasInput) && !old(isFirst) ==> engine == old(engine)
      ensures old(hasInput) && !old(isFirst) ==>
        resources == if Size(req) != (old(lastWidth), old(lastHeight)) then Some(Size(req)) else old(resources)
      ensures old(hasInput) && old(isFirst) && !req.engineStarts ==>
        && outcome == InitFailed && engine.trace == []
        && loadedFilePath == old(loadedFilePath) && currentFrame == old(currentFrame) && durationTicks == old(durationTicks)
      ensures old(hasInput) && (!old(isFirst) || req.engineStarts) ==>
        var start := Track(old(loadedFilePath), old(currentFrame), if old(isFirst) then [] else old(engine.trace));
        var loads, frames := EngineAccepts(engine.starts, accepts), EngineFrames(engine.starts, totalFrame);
        var taken := FileTaken(start, req.filePath, loads);
        var d := DurationAfter(start, req.filePath, loads, frames, req.fps, old(durationTicks));
        && (d.None? ==> outcome == DurationOverflow && State() == taken && durationTicks == old(durationTicks))
        && (d.Some? ==> outcome == Updated && durationTicks == d.value
                        && State() == Tracked(taken, req.frame, req.isLoop, frames, req.cam))
    {
      if !hasInput {
        return Skipped;
      }
      var ok := Prepare(Size(req), req.engineStarts);
      if !ok {
        return InitFailed;
      }
      ok := TakeFile(req.filePath, req.fps);
      if !ok {
        return DurationOverflow;
      }
      Follow(req.frame, req.isLoop, req.cam);
      return Updated;
    }
  }
}
