/**
 * The native Effekseer renderer as the two effect adapters see it, and the
 * frame synchronisation both of them run against it: map the timeline to a
 * target frame, fold it into the effect's length when looping, then rewind
 * with Reset or step forward with a single Update.
 */
module FrameSync {
  import opened Common

  /** One call into the native renderer, as it appears in the engine's trace. */
  datatype Call =
    | Reset
    | Update(delta: real)
    | LoadEffect(path: string, loaded: bool)
    | PlayEffect(path: string)
    | LookAt(x: real, y: real, z: real)

  /**
   * What an adapter's synchronisation works on: the effect path it last took
   * (`None` before the first), its `currentFrame`, and the engine's calls.
   */
  datatype Track = Track(loaded: Option<string>, current: real, trace: seq<Call>)

  /**
   * The native renderer, seen from outside: it records every call made to
   * it. Whether it starts, whether it accepts an effect file and how many
   * frames the loaded effect lasts are the engine's business, given here as
   * `starts`, `accepts` and `totalFrame` (a function of what it was asked to
   * do so far). A renderer that did not start has no effect manager: it
   * refuses every file and reports no frames.
   */
  class Engine {
    var trace: seq<Call>
    const starts: bool
    const accepts: string -> bool
    const totalFrame: seq<Call> -> int

    constructor(starts: bool, accepts: string -> bool, totalFrame: seq<Call> -> int)
      ensures trace == []
      ensures this.starts == starts && this.accepts == accepts && this.totalFrame == totalFrame
    {
      trace := [];
      this.starts := starts;
      this.accepts := accepts;
      this.totalFrame := totalFrame;
    }

    method Initialize() returns (ok: bool)
      ensures ok == starts
    {
      ok := starts;
    }

    method Reset()
      modifies this
      ensures trace == old(trace) + [Call.Reset]
    {
      trace := trace + [Call.Reset];
    }

    method Update(delta: real)
      modifies this
      ensures trace == old(trace) + [Call.Update(delta)]
    {
      trace := trace + [Call.Update(delta)];
    }

    method LoadEffect(path: string) returns (ok: bool)
      modifies this
      ensures ok == EngineAccepts(starts, accepts)(path)
      ensures !starts ==> !ok
      ensures trace == old(trace) + [Call.LoadEffect(path, ok)]
    {
      ok := starts && accepts(path);
      trace := trace + [Call.LoadEffect(path, ok)];
    }

    method PlayEffect(path: string)
      modifies this
      ensures trace == old(trace) + [Call.PlayEffect(path)]
    {
      trace := trace + [Call.PlayEffect(path)];
    }

    /** The camera looks from `(x, y, z)`; the target and up vector are fixed by the caller. */
    method SetCameraLookAt(x: real, y: real, z: real)
      modifies this
      ensures trace == old(trace) + [Call.LookAt(x, y, z)]
    {
      trace := trace + [Call.LookAt(x, y, z)];
    }

    method GetTotalFrame() returns (n: int)
      ensures n == EngineFrames(starts, totalFrame)(trace)
      ensures !starts ==> n == 0
    {
      n := if starts then totalFrame(trace) else 0;
    }
  }

  /** The files a renderer loads: none unless it started, then those the engine accepts. */
  function EngineAccepts(starts: bool, accepts: string -> bool): (loads: string -> bool)
    ensures forall path :: loads(path) == (starts && accepts(path))
  {
    path => starts && accepts(path)
  }

  /** The length a renderer reports: 0 unless it started, then the engine's. */
  function EngineFrames(starts: bool, totalFrame: seq<Call> -> int): (frames: seq<Call> -> int)
    ensures forall trace :: frames(trace) == if starts then totalFrame(trace) else 0
  {
    trace => if starts then totalFrame(trace) else 0
  }

  /**
   * C#'s `%` on doubles with an integer divisor: the remainder of a division
   * truncated toward zero, so it takes the sign of `x`.
   */
  function FMod(x: real, m: int): (r: real)
    requires m > 0
    ensures x >= 0.0 ==> 0.0 <= r < m as real
    ensures x < 0.0 ==> -(m as real) < r <= 0.0
  {
    if x >= 0.0 then Rem(x, m) else -Rem(-x, m)
  }

  /** What is left of `x >= 0` once whole multiples of `m` are taken away: `x % m` on doubles. */
  function Rem(x: real, m: int): (r: real)
    requires m > 0 && x >= 0.0
    ensures 0.0 <= r < m as real
    decreases x.Floor
  {
    if x < m as real then x else Rem(x - m as real, m)
  }

  /** Folding does not move a target already inside the effect. */
  lemma FModSmall(x: real, m: int)
    requires m > 0 && 0.0 <= x < m as real
    ensures FMod(x, m) == x
  {
  }

  /** A looping effect repeats: any whole number of effect lengths after a non-negative target folds to the same frame. */
  lemma {:induction false} FModPeriod(x: real, m: int, k: nat)
    requires m > 0 && x >= 0.0
    ensures FMod(x + (k * m) as real, m) == FMod(x, m)
    decreases k
  {
    if k > 0 {
      var y := x + ((k - 1) * m) as real;
      assert k * m == (k - 1) * m + m;
      assert (k - 1) * m >= 0;
      assert x + (k * m) as real == y + m as real;
      FModPeriod(x, m, k - 1);
    }
  }

  /**
   * The frame to synchronise to: with looping on and an effect length in
   * `(0, int.MaxValue)`, the target folded into that length.
   */
  function LoopTarget(target: real, totalFrames: int, isLoop: bool): (r: real)
    ensures isLoop && 0 < totalFrames < INT_MAX && target >= 0.0 ==> 0.0 <= r < totalFrames as real
    ensures !(isLoop && 0 < totalFrames < INT_MAX) ==> r == target
    ensures target >= 0.0 ==> r >= 0.0
  {
    if isLoop && 0 < totalFrames < INT_MAX then FMod(target, totalFrames) else target
  }

  /** Where the engine's frame counter stands before stepping: back at 0 after a rewind. */
  function SyncBase(current: real, target: real): real
  {
    if target < current then 0.0 else current
  }

  /** The calls one synchronisation makes: Reset on a rewind, then one Update by the distance still to go. */
  function SyncCalls(current: real, target: real): (calls: seq<Call>)
    ensures Call.Reset in calls <==> target < current
    ensures forall i :: 0 <= i < |calls| ==> calls[i].Reset? || (calls[i].Update? && calls[i].delta > 0.0)
    ensures |calls| <= 2
  {
    var base := SyncBase(current, target);
    (if target < current then [Call.Reset] else [])
    + (if target - base > 0.0 then [Call.Update(target - base)] else [])
  }

  /** `currentFrame` after one synchronisation. */
  function Synced(current: real, target: real): (next: real)
    ensures target >= 0.0 ==> next == target
    ensures target < 0.0 <= current ==> next == 0.0
  {
    var base := SyncBase(current, target);
    if target - base > 0.0 then target else base
  }

  /**
   * Lines 134-146 of the audio adapter and 169-181 of the video adapter:
   * rewind when the target lies behind the current frame, then step
   * forward by what remains.
   */
  method Sync(engine: Engine, current: real, target: real) returns (next: real)
    modifies engine
    ensures next == Synced(current, target)
    ensures engine.trace == old(engine.trace) + SyncCalls(current, target)
  {
    next := current;
    if target < next {
      engine.Reset();
      next := 0.0;
    }
    var delta := target - next;
    if delta > 0.0 {
      engine.Update(delta);
      next := target;
    }
  }

  /**
   * One synchronisation of a track: fold the target into the length the
   * engine reports for its calls so far, then rewind or step to it.
   */
  function SyncTrack(t: Track, target: real, isLoop: bool, totalFrame: seq<Call> -> int): (r: Track)
    ensures r.loaded == t.loaded
    ensures target >= 0.0 ==> r.current == LoopTarget(target, totalFrame(t.trace), isLoop)
    ensures t.current >= 0.0 ==> r.current >= 0.0
    ensures |t.trace| <= |r.trace| <= |t.trace| + 2 && r.trace[..|t.trace|] == t.trace
  {
    var goal := LoopTarget(target, totalFrame(t.trace), isLoop);
    Track(t.loaded, Synced(t.current, goal), t.trace + SyncCalls(t.current, goal))
  }

  /** A second synchronisation to the same target makes no call and stays put. */
  lemma RepeatIsQuiet(current: real, target: real)
    requires target >= 0.0
    ensures SyncCalls(Synced(current, target), target) == []
    ensures Synced(Synced(current, target), target) == Synced(current, target)
  {
  }

  /**
   * The engine's frame counter: how far the effect started last has been
   * played, the Update deltas since it started. An effect starts on a Reset,
   * which replays the effect played last; on a successful load, which plays
   * the new effect; and on a play of an effect loaded before. A play of a
   * file never loaded finds nothing to play.
   */
  function Clock(trace: seq<Call>): real
    decreases |trace|
  {
    if trace == [] then 0.0
    else
      var init := trace[..|trace| - 1];
      match trace[|trace| - 1]
      case Reset => 0.0
      case Update(d) => Clock(init) + d
      case LoadEffect(_, loaded) => if loaded then 0.0 else Clock(init)
      case PlayEffect(path) => if Call.LoadEffect(path, true) in init then 0.0 else Clock(init)
      case LookAt(_, _, _) => Clock(init)
  }

  lemma ClockAfterReset(trace: seq<Call>)
    ensures Clock(trace + [Call.Reset]) == 0.0
  {
    assert (trace + [Call.Reset])[|trace|] == Call.Reset;
  }

  lemma ClockAfterUpdate(trace: seq<Call>, d: real)
    ensures Clock(trace + [Call.Update(d)]) == Clock(trace) + d
  {
    assert (trace + [Call.Update(d)])[..|trace|] == trace;
    assert (trace + [Call.Update(d)])[|trace|] == Call.Update(d);
  }

  /** Synchronising keeps the engine in step: if its counter showed `current`, it shows the target afterwards. */
  lemma SyncKeepsClock(trace: seq<Call>, current: real, target: real)
    requires Clock(trace) == current && target >= 0.0
    ensures Clock(trace + SyncCalls(current, target)) == target
  {
    var calls := SyncCalls(current, target);
    if target < current {
      ClockAfterReset(trace);
      if target > 0.0 {
        ClockAfterUpdate(trace + [Call.Reset], target);
        assert calls == [Call.Reset, Call.Update(target)];
        assert trace + calls == trace + [Call.Reset] + [Call.Update(target)];
      } else {
        assert calls == [Call.Reset];
      }
    } else if target > current {
      ClockAfterUpdate(trace, target - current);
      assert calls == [Call.Update(target - current)];
    } else {
      assert calls == [];
      assert trace + calls == trace;
    }
  }

  /** A camera move leaves the frame counter alone. */
  lemma ClockAfterOther(trace: seq<Call>, c: Call)
    requires c.LookAt?
    ensures Clock(trace + [c]) == Clock(trace)
  {
    assert (trace + [c])[..|trace|] == trace;
  }

  /** A successful load plays the new effect from its first frame; a refused one changes nothing. */
  lemma ClockAfterLoad(trace: seq<Call>, path: string, loaded: bool)
    ensures Clock(trace + [Call.LoadEffect(path, loaded)]) == if loaded then 0.0 else Clock(trace)
  {
    assert (trace + [Call.LoadEffect(path, loaded)])[..|trace|] == trace;
  }

  /** Playing an effect loaded before starts it from its first frame; any other play changes nothing. */
  lemma ClockAfterPlay(trace: seq<Call>, path: string)
    ensures Clock(trace + [Call.PlayEffect(path)]) == if Call.LoadEffect(path, true) in trace then 0.0 else Clock(trace)
  {
    assert (trace + [Call.PlayEffect(path)])[..|trace|] == trace;
  }

  /** A track whose engine counter matched its frame still matches after a synchronisation. */
  lemma SyncTrackKeepsClock(t: Track, target: real, isLoop: bool, totalFrame: seq<Call> -> int)
    requires Clock(t.trace) == t.current && target >= 0.0
    ensures var r := SyncTrack(t, target, isLoop, totalFrame);
      Clock(r.trace) == r.current
  {
    var goal := LoopTarget(target, totalFrame(t.trace), isLoop);
    SyncKeepsClock(t.trace, t.current, goal);
  }

  /** The sum of every Update delta in a run of calls. */
  function TotalDelta(calls: seq<Call>): real
    decreases |calls|
  {
    if calls == [] then 0.0
    else
      var last := calls[|calls| - 1];
      TotalDelta(calls[..|calls| - 1]) + (if last.Update? then last.delta else 0.0)
  }

  lemma {:induction false} TotalDeltaConcat(a: seq<Call>, b: seq<Call>)
    ensures TotalDelta(a + b) == TotalDelta(a) + TotalDelta(b)
    decreases |b|
  {
    if b == [] {
      assert a + b == a;
    } else {
      var b' := b[..|b| - 1];
      assert (a + b)[..|a + b| - 1] == a + b';
      TotalDeltaConcat(a, b');
    }
  }

  /** Successive synchronisations from `current` to each target in turn: the final frame and every call made. */
  function Run(current: real, targets: seq<real>): (r: (real, seq<Call>))
    decreases |targets|
  {
    if targets == [] then (current, [])
    else
      var prev := Run(current, targets[..|targets| - 1]);
      var t := targets[|targets| - 1];
      (Synced(prev.0, t), prev.1 + SyncCalls(prev.0, t))
  }

  /**
   * Playback that only moves forward never rewinds the engine, and the
   * Update deltas add up to exactly the distance covered.
   */
  lemma {:induction false} ForwardRun(current: real, targets: seq<real>)
    requires 0.0 <= current
    requires forall i, j :: 0 <= i < j < |targets| ==> targets[i] <= targets[j]
    requires |targets| > 0 ==> current <= targets[0]
    ensures var r := Run(current, targets);
      && Call.Reset !in r.1
      && r.0 == (if targets == [] then current else targets[|targets| - 1])
      && TotalDelta(r.1) == r.0 - current
    decreases |targets|
  {
    if targets != [] {
      var init := targets[..|targets| - 1];
      ForwardRun(current, init);
      var prev := Run(current, init);
      var t := targets[|targets| - 1];
      assert prev.0 <= t;
      TotalDeltaConcat(prev.1, SyncCalls(prev.0, t));
      ForwardStep(prev.0, t);
    }
  }

  /** A synchronisation forward, or to the same frame, steps the engine by exactly the distance. */
  lemma ForwardStep(current: real, target: real)
    requires 0.0 <= current <= target
    ensures TotalDelta(SyncCalls(current, target)) == target - current
  {
    var calls := SyncCalls(current, target);
    if target - current > 0.0 {
      assert calls == [Call.Update(target - current)];
      assert calls[..0] == [];
    } else {
      assert calls == [];
    }
  }
}
