/**
 * What one call of Mix does with one voice, frame by frame: the frames it
 * adds into the window, the indices it leaves alone, and where the cursor
 * stops.
 */
module VoiceRendering {
  import opened Common
  import Wav
  import opened Voices

  /** After Advance the cursor is `k` steps on, `k` the frames played, and the voice plays on only if it used every frame. */
  lemma {:induction false} AdvanceState(v: Voice, frames: nat, step: real)
    requires VoiceOk(v) && step >= 0.0
    ensures var k := Played(v.position, step, FrameCount(v.sound), frames);
      Advance(v, frames, step) == v.(position := Cursor(v.position, step, k), isPlaying := v.isPlaying && k == frames)
    decreases frames
  {
    var p := v.position;
    var fc := FrameCount(v.sound);
    assert Cursor(p, step, 0) == p;
    if frames > 0 && p < fc as real {
      var v' := v.(position := p + step);
      assert Advance(v, frames, step) == Advance(v', frames - 1, step);
      AdvanceState(v', frames - 1, step);
      var k' := Played(p + step, step, fc, frames - 1);
      assert Played(p, step, fc, frames) == 1 + k';
      CursorNext(p, step, k');
    }
  }

  /** Render writes only the played frames, `at .. at + 2 * k`; everything else, in the window or not, is left as it was. */
  lemma {:induction false} RenderUnchanged(buf: seq<real>, at: int, frames: nat, s: Wav.Sound, pos: real, amp: ((real, real)) -> (real, real), step: real)
    requires s.channels > 0 && pos >= 0.0 && step >= 0.0
    requires frames > 0 ==> 0 <= at && at + 2 * frames <= |buf|
    ensures var r := Render(buf, at, frames, s, pos, amp, step);
      var k := Played(pos, step, FrameCount(s), frames);
      forall i :: 0 <= i < |buf| && !(at <= i < at + 2 * k) ==> r[i] == buf[i]
    decreases frames
  {
    var fc := FrameCount(s);
    if frames > 0 && pos < fc as real {
      var buf' := AddFrame(buf, at, amp(Frame(s, pos)));
      AddFrameAt(buf, at, amp(Frame(s, pos)));
      RenderUnchanged(buf', at + 2, frames - 1, s, pos + step, amp, step);
      assert Played(pos, step, fc, frames) == 1 + Played(pos + step, step, fc, frames - 1);
    }
  }

  /** The first frame, when played, is added at `at` and `at + 1`. */
  lemma RenderFirst(buf: seq<real>, at: int, frames: nat, s: Wav.Sound, pos: real, amp: ((real, real)) -> (real, real), step: real)
    requires s.channels > 0 && pos >= 0.0 && step >= 0.0
    requires frames > 0 ==> 0 <= at && at + 2 * frames <= |buf|
    requires 0 < Played(pos, step, FrameCount(s), frames)
    ensures var r := Render(buf, at, frames, s, pos, amp, step);
      var c := amp(Frame(s, pos));
      r[at] == buf[at] + c.0 && r[at + 1] == buf[at + 1] + c.1
  {
    var buf' := AddFrame(buf, at, amp(Frame(s, pos)));
    AddFrameAt(buf, at, amp(Frame(s, pos)));
    RenderUnchanged(buf', at + 2, frames - 1, s, pos + step, amp, step);
  }

  /** Played frame `m` adds the samples at the cursor of that frame, amplified, to what the buffer held. */
  lemma {:induction false} RenderAddsAt(buf: seq<real>, at: int, frames: nat, s: Wav.Sound, pos: real, amp: ((real, real)) -> (real, real), step: real, m: nat)
    requires s.channels > 0 && pos >= 0.0 && step >= 0.0
    requires frames > 0 ==> 0 <= at && at + 2 * frames <= |buf|
    requires m < Played(pos, step, FrameCount(s), frames)
    ensures var r := Render(buf, at, frames, s, pos, amp, step);
      var c := amp(Frame(s, Cursor(pos, step, m)));
      r[at + 2 * m] == buf[at + 2 * m] + c.0 && r[at + 2 * m + 1] == buf[at + 2 * m + 1] + c.1
    decreases frames
  {
    var fc := FrameCount(s);
    var buf' := AddFrame(buf, at, amp(Frame(s, pos)));
    assert Played(pos, step, fc, frames) == 1 + Played(pos + step, step, fc, frames - 1);
    if m == 0 {
      RenderFirst(buf, at, frames, s, pos, amp, step);
    } else {
      var i := at + 2 * m;
      var r := Render(buf', at + 2, frames - 1, s, pos + step, amp, step);
      assert r == Render(buf, at, frames, s, pos, amp, step);
      RenderAddsAt(buf', at + 2, frames - 1, s, pos + step, amp, step, m - 1);
      var j := at + 2 + 2 * (m - 1);
      var q := Cursor(pos + step, step, m - 1);
      assert r[j] == buf'[j] + amp(Frame(s, q)).0 && r[j + 1] == buf'[j + 1] + amp(Frame(s, q)).1;
      assert j == i;
      AddFrameAt(buf, at, amp(Frame(s, pos)));
      CursorNext(pos, step, m - 1);
      assert q == Cursor(pos, step, m);
      assert buf'[i] == buf[i] && buf'[i + 1] == buf[i + 1];
    }
  }

  /**
   * Each played frame adds the samples at the cursor of that frame, amplified,
   * to what the buffer held: additive, with no clearing or clipping.
   */
  lemma RenderAdds(buf: seq<real>, at: int, frames: nat, s: Wav.Sound, pos: real, amp: ((real, real)) -> (real, real), step: real)
    requires s.channels > 0 && pos >= 0.0 && step >= 0.0
    requires frames > 0 ==> 0 <= at && at + 2 * frames <= |buf|
    ensures var r := Render(buf, at, frames, s, pos, amp, step);
      var k := Played(pos, step, FrameCount(s), frames);
      forall m: nat :: m < k ==>
        && r[at + 2 * m] == buf[at + 2 * m] + amp(Frame(s, Cursor(pos, step, m))).0
        && r[at + 2 * m + 1] == buf[at + 2 * m + 1] + amp(Frame(s, Cursor(pos, step, m))).1
  {
    forall m: nat | m < Played(pos, step, FrameCount(s), frames) {
      RenderAddsAt(buf, at, frames, s, pos, amp, step, m);
    }
  }

  /**
   * A mono sound at the output rate, at pitch 0 with full volume and centre
   * pan, mixed into silence: each of the first frames holds the source sample
   * on both channels, until the sound runs out or the window ends, and nothing
   * else is written; the voice is marked finished exactly when the sound ran
   * out inside the window.
   */
  lemma MonoReproduced(buf: seq<real>, at: int, frames: nat, v: Voice, outputRate: int,
                       listener: Point, pow2: real -> real, sqrt: real -> real)
    requires v.sound.channels == 1 && v.sound.sampleRate == outputRate > 0
    requires v.isPlaying && v.position == 0.0 && v.volume == 1.0 && v.pan == 0.0 && !v.mode3D && v.pitch == 0.0
    requires pow2(0.0) == 1.0
    requires frames > 0 ==> 0 <= at && at + 2 * frames <= |buf|
    requires forall i :: 0 <= i < |buf| ==> buf[i] == 0.0
    ensures var step := Step(v, outputRate, pow2);
      var r := Render(buf, at, frames, v.sound, 0.0, Amplify(VoiceGains(v, listener, sqrt)), step);
      var played := if frames <= |v.sound.data| then frames else |v.sound.data|;
      && (forall m :: 0 <= m < played ==>
            r[at + 2 * m] == v.sound.data[m] && r[at + 2 * m + 1] == v.sound.data[m])
      && (forall i :: 0 <= i < |buf| && !(at <= i < at + 2 * played) ==> r[i] == 0.0)
      && Advance(v, frames, step) == v.(position := played as real, isPlaying := frames <= |v.sound.data|)
  {
    UnitRate(v, outputRate, pow2, listener, sqrt);
    UnitPlayed(|v.sound.data|, frames);
    MonoWritten(buf, at, frames, v.sound);
    RenderUnchanged(buf, at, frames, v.sound, 0.0, Amplify(Gains(1.0, 1.0)), 1.0);
    AdvanceState(v, frames, 1.0);
    CursorClosed(0.0, 1.0, Played(0.0, 1.0, |v.sound.data|, frames));
  }

  /** Played at unit gain and one frame per output frame into silence, a mono sound's first frames are its samples on both channels. */
  lemma MonoWritten(buf: seq<real>, at: int, frames: nat, s: Wav.Sound)
    requires s.channels == 1
    requires frames > 0 ==> 0 <= at && at + 2 * frames <= |buf|
    requires forall i :: 0 <= i < |buf| ==> buf[i] == 0.0
    ensures var r := Render(buf, at, frames, s, 0.0, Amplify(Gains(1.0, 1.0)), 1.0);
      forall m :: 0 <= m < frames && m < |s.data| ==>
        r[at + 2 * m] == s.data[m] && r[at + 2 * m + 1] == s.data[m]
  {
    var amp := Amplify(Gains(1.0, 1.0));
    var r := Render(buf, at, frames, s, 0.0, amp, 1.0);
    UnitPlayed(|s.data|, frames);
    forall m | 0 <= m < frames && m < |s.data|
      ensures r[at + 2 * m] == s.data[m] && r[at + 2 * m + 1] == s.data[m]
    {
      RenderAddsAt(buf, at, frames, s, 0.0, amp, 1.0, m);
      CursorClosed(0.0, 1.0, m);
      MonoSample(s, m);
    }
  }

  /** A voice at the output rate and pitch 0 steps one frame per output frame; full volume at centre pan leaves both channels at unit gain. */
  lemma UnitRate(v: Voice, outputRate: int, pow2: real -> real, listener: Point, sqrt: real -> real)
    requires v.sound.sampleRate == outputRate > 0 && v.pitch == 0.0 && pow2(0.0) == 1.0
    requires v.volume == 1.0 && v.pan == 0.0 && !v.mode3D
    ensures Step(v, outputRate, pow2) == 1.0
    ensures VoiceGains(v, listener, sqrt) == Gains(1.0, 1.0)
  {
    assert v.sound.sampleRate as real / outputRate as real == 1.0;
  }

  /** Stepping one frame at a time from 0, a sound of `n` frames plays `min(frames, n)` of them. */
  lemma UnitPlayed(n: int, frames: nat)
    requires n >= 0
    ensures Played(0.0, 1.0, n, frames) == if frames <= n then frames else n
  {
    var k := Played(0.0, 1.0, n, frames);
    if k > 0 {
      // the last frame played started inside the sound
      CursorClosed(0.0, 1.0, k - 1);
    }
    if k < frames {
      // the voice stopped at the end of the sound
      CursorClosed(0.0, 1.0, k);
    }
  }

  /** Frame `m` of a mono sound is sample `m` on both channels. */
  lemma MonoSample(s: Wav.Sound, m: nat)
    requires s.channels == 1 && m < |s.data|
    ensures Frame(s, m as real) == (s.data[m], s.data[m])
  {
    assert (m as real).Floor == m;
    FrameReads(s, m as real);
  }
}
