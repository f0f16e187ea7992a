/**
 * One voice of `EffekseerSoundMixer` (`EffekseerVoice`) and what one call of
 * Mix does with it: the left/right gains, the cursor step per stereo frame,
 * and the frames it adds into the output window.
 *
 * `float` and `double` arithmetic is exact real arithmetic here.
 */
module Voices {
  import opened Common
  import Wav

  /**
   * `EffekseerVoice`. The sound is held by value: the mixer never changes a
   * sound after loading it, so sharing the reference changes nothing.
   * `position` is the cursor in frames of the sound.
   */
  datatype Voice = Voice(
    sound: Wav.Sound,
    volume: real, pan: real, pitch: real,
    mode3D: bool, x: real, y: real, z: real, distance: real,
    position: real, isPlaying: bool)

  datatype Point = Point(x: real, y: real, z: real)

  datatype Gains = Gains(left: real, right: real)

  /** A voice as PlaySound creates it: at the first frame and playing. */
  function NewVoice(sound: Wav.Sound, volume: real, pan: real, pitch: real, mode3D: bool,
                    x: real, y: real, z: real, distance: real): (v: Voice)
    ensures v.sound == sound && v.position == 0.0 && v.isPlaying
  {
    Voice(sound, volume, pan, pitch, mode3D, x, y, z, distance, 0.0, true)
  }

  /** A sound Mix can play: at least one channel and a rate that does not run backwards. */
  predicate Playable(s: Wav.Sound)
  {
    s.channels > 0 && s.sampleRate >= 0
  }

  /** What the mixer keeps true of each voice between calls. */
  predicate VoiceOk(v: Voice)
  {
    Playable(v.sound) && v.position >= 0.0
  }

  /** `Data.Length / Channels`: whole frames in the sound (C# integer division). */
  function FrameCount(s: Wav.Sound): (n: int)
    requires s.channels > 0
    ensures 0 <= n
  {
    |s.data| / s.channels
  }

  /**
   * The left and right samples at cursor `pos`, read at `(int)pos`: mono is
   * duplicated, stereo is de-interleaved, any other channel count is silent.
   * The precondition is the source's guard plus a cursor that is not negative;
   * under it every index read lies inside the data.
   */
  function Frame(s: Wav.Sound, pos: real): (lr: (real, real))
    requires s.channels > 0 && 0.0 <= pos < FrameCount(s) as real
    ensures s.channels <= 2 ==> lr.0 in s.data && lr.1 in s.data
    ensures s.channels == 1 ==> lr.0 == lr.1
    ensures s.channels > 2 ==> lr == (0.0, 0.0)
  {
    var i := Trunc(pos);
    if s.channels == 1 then (s.data[i], s.data[i])
    else if s.channels == 2 then (s.data[2 * i], s.data[2 * i + 1])
    else (0.0, 0.0)
  }

  /** The 2D pan law: a negative pan scales the right side by `1 + pan`, a positive one the left by `1 - pan`. */
  function PanGains(volume: real, pan: real): (g: Gains)
    ensures pan <= 0.0 ==> g.left == volume
    ensures pan >= 0.0 ==> g.right == volume
  {
    if pan < 0.0 then Gains(volume, volume * (1.0 + pan))
    else if pan > 0.0 then Gains(volume * (1.0 - pan), volume)
    else Gains(volume, volume)
  }

  /** Inverse-distance attenuation past the reference distance `max(0.1, distance)`. */
  function Attenuated(volume: real, distance: real, dist: real): (a: real)
    ensures dist < MaxReal(0.1, distance) ==> a == volume
    ensures dist >= MaxReal(0.1, distance) ==> a * dist == volume * MaxReal(0.1, distance)
  {
    var refDist := MaxReal(0.1, distance);
    if dist < refDist then volume else volume * (refDist / dist)
  }

  /**
   * The 3D gains of a voice `dist` away from the listener and `dx` to its
   * right: attenuation first, then the clamped pan `dx / dist` unless the voice
   * sits on the listener.
   */
  function Gains3D(volume: real, distance: real, dx: real, dist: real): (g: Gains)
    ensures g.left == Attenuated(volume, distance, dist) || g.right == Attenuated(volume, distance, dist)
    ensures dist <= 0.001 ==> g.left == g.right == Attenuated(volume, distance, dist)
  {
    var a := Attenuated(volume, distance, dist);
    if dist > 0.001 then
      var pan3d := Clamp(dx / dist, -1.0, 1.0);
      if pan3d < 0.0 then Gains(a, a * (1.0 + pan3d))
      else if pan3d > 0.0 then Gains(a * (1.0 - pan3d), a)
      else Gains(a, a)
    else Gains(a, a)
  }

  /** The gains Mix computes for a voice; `sqrt` stands for `Math.Sqrt`. */
  function VoiceGains(v: Voice, listener: Point, sqrt: real -> real): (g: Gains)
    ensures !v.mode3D ==> (v.pan <= 0.0 ==> g.left == v.volume) && (v.pan >= 0.0 ==> g.right == v.volume)
  {
    if v.mode3D then Gains3D(v.volume, v.distance, v.x - listener.x, Distance(v, listener, sqrt))
    else PanGains(v.volume, v.pan)
  }

  /** The distance from the listener to a 3D voice, `Math.Sqrt(dx * dx + dy * dy + dz * dz)`. */
  function Distance(v: Voice, listener: Point, sqrt: real -> real): real
  {
    var dx := v.x - listener.x;
    var dy := v.y - listener.y;
    var dz := v.z - listener.z;
    sqrt(dx * dx + dy * dy + dz * dz)
  }

  /** Cursor advance per stereo frame, `2^pitch * sampleRate / outputRate`; `pow2` stands for `Math.Pow(2, _)`. */
  function Step(v: Voice, outputRate: int, pow2: real -> real): (step: real)
    requires outputRate > 0
    ensures pow2(v.pitch) > 0.0 && v.sound.sampleRate >= 0 ==> step >= 0.0
    ensures pow2(v.pitch) > 0.0 && v.sound.sampleRate < 0 ==> step < 0.0
  {
    pow2(v.pitch) * (v.sound.sampleRate as real / outputRate as real)
  }

  /** Stereo frames one call offers each voice: `j` runs over `0, 2, 4, …` below `count`. */
  function Slots(count: int): (n: nat)
    ensures count <= 0 ==> n == 0
    ensures count > 0 ==> count <= 2 * n <= count + 1
  {
    if count <= 0 then 0 else (count + 1) / 2
  }

  /** The buffer indices Mix writes, `offset .. offset + 2 * Slots(count)`, lie in a buffer of length `len`. */
  predicate Window(len: int, offset: int, count: int)
  {
    count <= 0 || (0 <= offset && offset + 2 * Slots(count) <= len)
  }

  /** The gains as a map from a frame's left and right samples to what Mix adds to the two channels. */
  function Amplify(g: Gains): (amp: ((real, real)) -> (real, real))
    ensures forall lr: (real, real) :: amp(lr).0 == lr.0 * g.left && amp(lr).1 == lr.1 * g.right
  {
    (lr: (real, real)) => (lr.0 * g.left, lr.1 * g.right)
  }

  /**
   * The inner loop of Mix for one playing voice, on the buffer: from index
   * `at` with `frames` stereo frames left and the cursor at `pos`, stop once
   * the cursor reaches the end of the sound, otherwise add the frame under
   * the cursor, amplified, and move on.
   */
  function Render(buf: seq<real>, at: int, frames: nat, s: Wav.Sound, pos: real,
                  amp: ((real, real)) -> (real, real), step: real): (r: seq<real>)
    requires s.channels > 0 && pos >= 0.0 && step >= 0.0
    requires frames > 0 ==> 0 <= at && at + 2 * frames <= |buf|
    ensures |r| == |buf|
    decreases frames
  {
    if frames == 0 || pos >= FrameCount(s) as real then buf
    else Render(AddFrame(buf, at, amp(Frame(s, pos))), at + 2, frames - 1, s, pos + step, amp, step)
  }

  /** `buffer[at] += left; buffer[at + 1] += right`. */
  function AddFrame(buf: seq<real>, at: int, lr: (real, real)): (r: seq<real>)
    requires 0 <= at && at + 2 <= |buf|
    ensures |r| == |buf|
  {
    buf[at := buf[at] + lr.0][at + 1 := buf[at + 1] + lr.1]
  }

  /** One turn of the loop: a frame under the cursor is added at `at` and the rest is rendered from the next cursor. */
  lemma RenderStep(buf: seq<real>, at: int, frames: nat, s: Wav.Sound, pos: real,
                   amp: ((real, real)) -> (real, real), step: real)
    requires s.channels > 0 && pos >= 0.0 && step >= 0.0
    requires frames > 0 && 0 <= at && at + 2 * frames <= |buf| && pos < FrameCount(s) as real
    ensures Render(buf, at, frames, s, pos, amp, step)
         == Render(AddFrame(buf, at, amp(Frame(s, pos))), at + 2, frames - 1, s, pos + step, amp, step)
  {
  }

  /** A cursor at or past the end of the sound renders nothing. */
  lemma RenderAtEnd(buf: seq<real>, at: int, frames: nat, s: Wav.Sound, pos: real,
                    amp: ((real, real)) -> (real, real), step: real)
    requires s.channels > 0 && pos >= 0.0 && step >= 0.0
    requires frames > 0 ==> 0 <= at && at + 2 * frames <= |buf|
    requires pos >= FrameCount(s) as real
    ensures Render(buf, at, frames, s, pos, amp, step) == buf
  {
  }

  /** No frames left renders nothing. */
  lemma RenderNone(buf: seq<real>, at: int, s: Wav.Sound, pos: real,
                   amp: ((real, real)) -> (real, real), step: real)
    requires s.channels > 0 && pos >= 0.0 && step >= 0.0
    ensures Render(buf, at, 0, s, pos, amp, step) == buf
  {
  }

  /** AddFrame changes the two samples at `at` and nothing else. */
  lemma AddFrameAt(buf: seq<real>, at: int, lr: (real, real))
    requires 0 <= at && at + 2 <= |buf|
    ensures var r := AddFrame(buf, at, lr);
      && r[at] == buf[at] + lr.0 && r[at + 1] == buf[at + 1] + lr.1
      && forall i :: 0 <= i < |buf| && i != at && i != at + 1 ==> r[i] == buf[i]
  {
  }

  /**
   * The same loop, on the voice: the cursor moves one step per frame played,
   * and the voice is marked finished when the loop finds its cursor at or past
   * the end of the sound.
   */
  function Advance(v: Voice, frames: nat, step: real): (r: Voice)
    requires VoiceOk(v) && step >= 0.0
    ensures VoiceOk(r) && r.position >= v.position
    ensures r == v.(position := r.position, isPlaying := r.isPlaying)
    decreases frames
  {
    if frames == 0 then v
    else if v.position >= FrameCount(v.sound) as real then v.(isPlaying := false)
    else Advance(v.(position := v.position + step), frames - 1, step)
  }

  /** A voice whose cursor is at or past the end of its sound stops, if it has a frame left to try. */
  lemma AdvanceAtEnd(v: Voice, frames: nat, step: real)
    requires VoiceOk(v) && step >= 0.0 && v.position >= FrameCount(v.sound) as real
    ensures Advance(v, frames, step) == if frames == 0 then v else v.(isPlaying := false)
  {
  }

  /** The cursor after `m` frames from `p`, one step per frame. */
  function Cursor(p: real, step: real, m: nat): (c: real)
    ensures step >= 0.0 ==> c >= p
  {
    if m == 0 then p else Cursor(p, step, m - 1) + step
  }

  /** In closed form, `m` frames move the cursor by `m * step`. */
  lemma {:induction false} CursorClosed(p: real, step: real, m: nat)
    ensures Cursor(p, step, m) == p + m as real * step
  {
    if m > 0 {
      CursorClosed(p, step, m - 1);
      assert (m - 1) as real * step + step == m as real * step;
    }
  }

  /** Starting one step later is the same as one frame more. */
  lemma {:induction false} CursorNext(p: real, step: real, m: nat)
    ensures Cursor(p + step, step, m) == Cursor(p, step, m + 1)
  {
    if m > 0 {
      CursorNext(p, step, m - 1);
    }
  }

  /**
   * How many of `frames` frames a voice starting at cursor `p` plays before
   * its cursor reaches `fc`: every played frame starts below `fc`, and if the
   * voice stops early the next cursor is at or past `fc`.
   */
  function Played(p: real, step: real, fc: int, frames: nat): (k: nat)
    ensures k <= frames
    ensures forall m: nat :: m < k ==> Cursor(p, step, m) < fc as real
    ensures k < frames ==> Cursor(p, step, k) >= fc as real
    decreases frames
  {
    if frames == 0 || p >= fc as real then 0
    else
      var k' := Played(p + step, step, fc, frames - 1);
      assert forall m :: 1 <= m < k' + 1 ==> Cursor(p, step, m) < fc as real by {
        forall m | 1 <= m < k' + 1 ensures Cursor(p, step, m) < fc as real {
          CursorNext(p, step, m - 1);
        }
      }
      CursorNext(p, step, k');
      assert Cursor(p, step, 0) == p;
      1 + k'
  }

  /** The samples Frame reads: the data at `(int)pos` for mono, the interleaved pair for stereo. */
  lemma FrameReads(s: Wav.Sound, pos: real)
    requires s.channels > 0 && 0.0 <= pos < FrameCount(s) as real
    ensures s.channels == 1 ==> Frame(s, pos) == (s.data[pos.Floor], s.data[pos.Floor])
    ensures s.channels == 2 ==> Frame(s, pos) == (s.data[2 * pos.Floor], s.data[2 * pos.Floor + 1])
    ensures s.channels > 2 ==> Frame(s, pos) == (0.0, 0.0)
  {
  }

  // Properties of the gains.

  /** Within `|pan| <= 1`, the 2D gains lie in `[0, volume]`, the side the pan points to keeps full volume, and they are equal only at centre pan. */
  lemma PanGainsBounds(volume: real, pan: real)
    requires volume >= 0.0 && -1.0 <= pan <= 1.0
    ensures var g := PanGains(volume, pan);
      && 0.0 <= g.left <= volume && 0.0 <= g.right <= volume
      && (pan <= 0.0 ==> g.left == volume) && (pan >= 0.0 ==> g.right == volume)
      && (volume > 0.0 ==> (g.left == g.right <==> pan == 0.0))
  {
    if pan < 0.0 {
      ScaleBounds(volume, 1.0 + pan);
      if volume > 0.0 {
        assert volume * (1.0 + pan) < volume * 1.0;
      }
    } else if pan > 0.0 {
      ScaleBounds(volume, 1.0 - pan);
      if volume > 0.0 {
        assert volume * (1.0 - pan) < volume * 1.0;
      }
    }
  }

  /** With a volume of at least 0 and a pan within `[-1, 1]`, the gains Mix applies to a voice never exceed its volume, 2D or 3D. */
  lemma VoiceGainsBounds(v: Voice, listener: Point, sqrt: real -> real)
    requires v.volume >= 0.0 && (v.mode3D || -1.0 <= v.pan <= 1.0)
    ensures var g := VoiceGains(v, listener, sqrt);
      0.0 <= g.left <= v.volume && 0.0 <= g.right <= v.volume
  {
    if v.mode3D {
      Gains3DBounds(v.volume, v.distance, v.x - listener.x, Distance(v, listener, sqrt));
    } else {
      PanGainsBounds(v.volume, v.pan);
    }
  }

  /** Inside the reference distance there is no attenuation; past it the gain falls as `refDist / dist`, never above the volume. */
  lemma AttenuationBounds(volume: real, distance: real, dist: real)
    requires volume >= 0.0
    ensures var a := Attenuated(volume, distance, dist);
      && 0.0 <= a <= volume
      && (dist < MaxReal(0.1, distance) ==> a == volume)
      && (dist >= MaxReal(0.1, distance) ==> a * dist == volume * MaxReal(0.1, distance))
  {
    var refDist := MaxReal(0.1, distance);
    if dist >= refDist {
      RatioAtMostOne(refDist, dist);
      ScaleBounds(volume, refDist / dist);
      assert volume * (refDist / dist) * dist == volume * (refDist / dist * dist);
    }
  }

  lemma RatioAtMostOne(p: real, q: real)
    requires 0.0 < p <= q
    ensures 0.0 < p / q <= 1.0 && p / q * q == p
  {
  }

  /** The inverse-distance law: at exactly the reference distance the gain is the volume, and at twice it, half. */
  lemma AttenuationHalves(volume: real, distance: real)
    requires distance >= 0.1
    ensures Attenuated(volume, distance, distance) == volume
    ensures Attenuated(volume, distance, 2.0 * distance) == volume / 2.0
  {
    assert distance / (2.0 * distance) == 0.5;
  }

  lemma ScaleBounds(a: real, t: real)
    requires 0.0 <= a && 0.0 <= t <= 1.0
    ensures 0.0 <= a * t <= a
  {
    assert a * t <= a * 1.0;
  }

  /** With a volume of at least 0, both 3D gains lie in `[0, volume]`, whatever the position. */
  lemma Gains3DBounds(volume: real, distance: real, dx: real, dist: real)
    requires volume >= 0.0
    ensures var g := Gains3D(volume, distance, dx, dist);
      0.0 <= g.left <= volume && 0.0 <= g.right <= volume
  {
    AttenuationBounds(volume, distance, dist);
    var a := Attenuated(volume, distance, dist);
    if dist > 0.001 {
      var pan3d := Clamp(dx / dist, -1.0, 1.0);
      if pan3d < 0.0 {
        ScaleBounds(a, 1.0 + pan3d);
      } else if pan3d > 0.0 {
        ScaleBounds(a, 1.0 - pan3d);
      }
    }
  }

  /** A voice straight ahead of or behind the listener is centred; one fully to the right is silent on the left. */
  lemma Gains3DSides(volume: real, distance: real, dx: real, dist: real)
    requires dist > 0.001
    ensures dx == 0.0 ==> Gains3D(volume, distance, dx, dist).left == Gains3D(volume, distance, dx, dist).right
    ensures dx >= dist ==> Gains3D(volume, distance, dx, dist).left == 0.0
    ensures dx <= -dist ==> Gains3D(volume, distance, dx, dist).right == 0.0
  {
    if dx >= dist {
      assert dx / dist >= 1.0;
    }
    if dx <= -dist {
      assert dx / dist <= -1.0;
    }
  }
}
