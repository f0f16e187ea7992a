/**
 * `EffekseerSoundMixer`: the registry of decoded sounds, the list of playing
 * voices and the listener position, and Mix, which adds every playing voice
 * into a window of the output buffer and prunes the voices that finished.
 *
 * The lock around each operation is left out: every method here runs alone.
 */
module Mixer {
  import opened Common
  import Wav
  import opened Voices
  import opened VoiceRendering
  import WavWriter

  /**
   * One call of Mix on the voice list, voice by voice in list order: a
   * playing voice adds its frames into the buffer and advances, a finished
   * one is skipped. Gives the buffer and the voices as the loop leaves them,
   * before pruning.
   */
  function MixVoices(buf: seq<real>, offset: int, count: int, vs: seq<Voice>,
                     listener: Point, outputRate: int, pow2: real -> real, sqrt: real -> real): (r: (seq<real>, seq<Voice>))
    requires Window(|buf|, offset, count) && outputRate > 0 && forall x :: pow2(x) > 0.0
    requires forall i :: 0 <= i < |vs| ==> VoiceOk(vs[i])
    ensures |r.0| == |buf| && |r.1| == |vs|
    ensures forall i :: 0 <= i < |r.1| ==> VoiceOk(r.1[i])
    decreases |vs|
  {
    if vs == [] then (buf, [])
    else
      var prev := MixVoices(buf, offset, count, vs[..|vs| - 1], listener, outputRate, pow2, sqrt);
      var v := vs[|vs| - 1];
      assert VoiceOk(v);
      if !v.isPlaying then (prev.0, prev.1 + [v])
      else
        var step := Step(v, outputRate, pow2);
        var amp := Amplify(VoiceGains(v, listener, sqrt));
        (Render(prev.0, offset, Slots(count), v.sound, v.position, amp, step), prev.1 + [Advance(v, Slots(count), step)])
  }

  /** The voice list mixed up to voice `i` inclusive: the mix up to `i`, then voice `i` rendered and advanced, or skipped. */
  lemma MixVoicesStep(buf: seq<real>, offset: int, count: int, vs: seq<Voice>, i: int,
                      listener: Point, outputRate: int, pow2: real -> real, sqrt: real -> real)
    requires Window(|buf|, offset, count) && outputRate > 0 && forall x :: pow2(x) > 0.0
    requires forall k :: 0 <= k < |vs| ==> VoiceOk(vs[k])
    requires 0 <= i < |vs|
    ensures var prev := MixVoices(buf, offset, count, vs[..i], listener, outputRate, pow2, sqrt);
      var v := vs[i];
      var step := Step(v, outputRate, pow2);
      MixVoices(buf, offset, count, vs[..i + 1], listener, outputRate, pow2, sqrt)
      == if !v.isPlaying then (prev.0, prev.1 + [v])
         else (Render(prev.0, offset, Slots(count), v.sound, v.position, Amplify(VoiceGains(v, listener, sqrt)), step),
               prev.1 + [Advance(v, Slots(count), step)])
  {
    assert vs[..i + 1][..i] == vs[..i];
  }

  /**
   * Each voice moves on by itself: the voices Mix leaves behind are the
   * playing ones advanced over the window at their own step, and the
   * finished ones untouched, whatever the other voices and the buffer hold.
   */
  lemma {:induction false} MixAdvancesEach(buf: seq<real>, offset: int, count: int, vs: seq<Voice>,
                                           listener: Point, outputRate: int, pow2: real -> real, sqrt: real -> real)
    requires Window(|buf|, offset, count) && outputRate > 0 && forall x :: pow2(x) > 0.0
    requires forall i :: 0 <= i < |vs| ==> VoiceOk(vs[i])
    ensures var r := MixVoices(buf, offset, count, vs, listener, outputRate, pow2, sqrt);
      forall i :: 0 <= i < |vs| ==>
        r.1[i] == if vs[i].isPlaying then Advance(vs[i], Slots(count), Step(vs[i], outputRate, pow2)) else vs[i]
    decreases |vs|
  {
    if vs != [] {
      MixAdvancesEach(buf, offset, count, vs[..|vs| - 1], listener, outputRate, pow2, sqrt);
    }
  }

  /** Mix writes only its window, `offset .. offset + 2 * Slots(count)`: `offset .. offset + count` when `count` is even. */
  lemma {:induction false} MixStaysInWindow(buf: seq<real>, offset: int, count: int, vs: seq<Voice>,
                                            listener: Point, outputRate: int, pow2: real -> real, sqrt: real -> real)
    requires Window(|buf|, offset, count) && outputRate > 0 && forall x :: pow2(x) > 0.0
    requires forall i :: 0 <= i < |vs| ==> VoiceOk(vs[i])
    ensures var r := MixVoices(buf, offset, count, vs, listener, outputRate, pow2, sqrt);
      forall i :: 0 <= i < |buf| && !(offset <= i < offset + 2 * Slots(count)) ==> r.0[i] == buf[i]
    ensures count % 2 == 0 ==> offset + 2 * Slots(count) == offset + count || count < 0
    decreases |vs|
  {
    if vs != [] {
      var init := vs[..|vs| - 1];
      MixStaysInWindow(buf, offset, count, init, listener, outputRate, pow2, sqrt);
      var prev := MixVoices(buf, offset, count, init, listener, outputRate, pow2, sqrt);
      var v := vs[|vs| - 1];
      if v.isPlaying {
        var step := Step(v, outputRate, pow2);
        var amp := Amplify(VoiceGains(v, listener, sqrt));
        RenderUnchanged(prev.0, offset, Slots(count), v.sound, v.position, amp, step);
      }
    }
  }

  /** `voices.RemoveAll(v => !v.IsPlaying)`: the playing voices, in their order. */
  function Survivors(vs: seq<Voice>): (r: seq<Voice>)
    ensures |r| <= |vs|
    ensures forall i :: 0 <= i < |r| ==> r[i].isPlaying
    ensures (forall i :: 0 <= i < |vs| ==> VoiceOk(vs[i])) ==> forall i :: 0 <= i < |r| ==> VoiceOk(r[i])
    decreases |vs|
  {
    if vs == [] then []
    else Survivors(vs[..|vs| - 1]) + (if vs[|vs| - 1].isPlaying then [vs[|vs| - 1]] else [])
  }

  /** Pruning keeps relative order: the survivors of a concatenation are the concatenated survivors. */
  lemma {:induction false} SurvivorsConcat(a: seq<Voice>, b: seq<Voice>)
    ensures Survivors(a + b) == Survivors(a) + Survivors(b)
    decreases |b|
  {
    if b != [] {
      var b' := b[..|b| - 1];
      assert (a + b)[..|a + b| - 1] == a + b';
      assert (a + b)[|a + b| - 1] == b[|b| - 1];
      SurvivorsConcat(a, b');
    } else {
      assert a + b == a;
    }
  }

  /** A voice survives exactly when it is in the list and still playing. */
  lemma {:induction false} SurvivorsMembers(vs: seq<Voice>)
    ensures forall v :: v in Survivors(vs) <==> v in vs && v.isPlaying
    decreases |vs|
  {
    if vs != [] {
      var init := vs[..|vs| - 1];
      SurvivorsMembers(init);
      assert vs == init + [vs[|vs| - 1]];
    }
  }

  /** Nothing is pruned from a list of playing voices. */
  lemma {:induction false} SurvivorsOfPlaying(vs: seq<Voice>)
    requires forall i :: 0 <= i < |vs| ==> vs[i].isPlaying
    ensures Survivors(vs) == vs
    decreases |vs|
  {
    if vs != [] {
      var init := vs[..|vs| - 1];
      SurvivorsOfPlaying(init);
      assert vs == init + [vs[|vs| - 1]];
    }
  }

  /**
   * The inner loop of Mix for one playing voice: `j` steps over the window
   * two samples at a time, a frame at the cursor is added with the voice's
   * gains, and the loop stops, marking the voice finished, once the cursor
   * reaches the end of the sound.
   */
  method MixVoice(buffer: array<real>, offset: int, count: int, v: Voice,
                  amp: ((real, real)) -> (real, real), step: real)
    returns (voice: Voice)
    requires Window(buffer.Length, offset, count) && VoiceOk(v) && step >= 0.0
    modifies buffer
    ensures buffer[..] == Render(old(buffer[..]), offset, Slots(count), v.sound, v.position, amp, step)
    ensures voice == Advance(v, Slots(count), step)
  {
    ghost var start := buffer[..];
    var frames := Slots(count);
    voice := v;
    var j := 0;
    ghost var played := 0;
    RenderNone(start, offset, v.sound, v.position, amp, step);
    while j < count
      invariant 0 <= played <= frames && j == 2 * played
      invariant VoiceOk(voice) && voice.sound == v.sound
      invariant Render(buffer[..], offset + j, frames - played, v.sound, voice.position, amp, step)
             == Render(start, offset, frames, v.sound, v.position, amp, step)
      invariant Advance(voice, frames - played, step) == Advance(v, frames, step)
      decreases count - j
    {
      if voice.position >= FrameCount(voice.sound) as real {
        RenderAtEnd(buffer[..], offset + j, frames - played, v.sound, voice.position, amp, step);
        AdvanceAtEnd(voice, frames - played, step);
        voice := voice.(isPlaying := false);
        break;
      }
      var rest := frames - j / 2;
      assert rest == frames - played;
      voice := MixFrame(buffer, offset + j, rest, voice, amp, step);
      assert offset + j + 2 == offset + (j + 2) && rest - 1 == frames - (played + 1);
      j := j + 2;
      played := played + 1;
    }
    if j >= count {
      assert played == frames;
      RenderNone(buffer[..], offset + j, v.sound, voice.position, amp, step);
    }
  }

  /**
   * One turn of the inner loop: the frame under the cursor, `Data[(int)Position]`
   * or the pair at twice that index in stereo, is added at `at`, and the cursor
   * moves one step; what is left to render and to advance is one frame shorter.
   */
  method MixFrame(buffer: array<real>, at: int, frames: nat, v: Voice,
                  amp: ((real, real)) -> (real, real), step: real)
    returns (voice: Voice)
    requires VoiceOk(v) && step >= 0.0 && v.position < FrameCount(v.sound) as real
    requires frames > 0 && 0 <= at && at + 2 * frames <= buffer.Length
    modifies buffer
    ensures voice == v.(position := v.position + step) && VoiceOk(voice)
    ensures Render(buffer[..], at + 2, frames - 1, v.sound, voice.position, amp, step)
         == Render(old(buffer[..]), at, frames, v.sound, v.position, amp, step)
    ensures Advance(voice, frames - 1, step) == Advance(v, frames, step)
  {
    var lr := amp(Frame(v.sound, v.position));
    RenderStep(buffer[..], at, frames, v.sound, v.position, amp, step);
    AddAt(buffer, at, lr);
    voice := v.(position := v.position + step);
  }

  /** `buffer[at] += left; buffer[at + 1] += right`, in place. */
  method AddAt(buffer: array<real>, at: int, lr: (real, real))
    requires 0 <= at && at + 2 <= buffer.Length
    modifies buffer
    ensures buffer[..] == AddFrame(old(buffer[..]), at, lr)
  {
    buffer[at] := buffer[at] + lr.0;
    buffer[at + 1] := buffer[at + 1] + lr.1;
  }

  /**
   * The loop of Mix over the voice list: each playing voice is mixed in with
   * its gains and step, in list order; finished voices are skipped.
   */
  method MixAll(buffer: array<real>, offset: int, count: int, vs: seq<Voice>,
                listener: Point, outputRate: int, pow2: real -> real, sqrt: real -> real)
    returns (mixed: seq<Voice>)
    requires Window(buffer.Length, offset, count) && outputRate > 0 && forall x :: pow2(x) > 0.0
    requires forall i :: 0 <= i < |vs| ==> VoiceOk(vs[i])
    modifies buffer
    ensures var r := MixVoices(old(buffer[..]), offset, count, vs, listener, outputRate, pow2, sqrt);
      buffer[..] == r.0 && mixed == r.1
  {
    mixed := vs;
    var i := 0;
    while i < |mixed|
      invariant 0 <= i <= |mixed| == |vs|
      invariant mixed[i..] == vs[i..]
      invariant forall k :: 0 <= k < |mixed| ==> VoiceOk(mixed[k])
      invariant (buffer[..], mixed[..i]) == MixVoices(old(buffer[..]), offset, count, vs[..i], listener, outputRate, pow2, sqrt)
      decreases |mixed| - i
    {
      var voice := mixed[i];
      assert voice == vs[i];
      MixVoicesStep(old(buffer[..]), offset, count, vs, i, listener, outputRate, pow2, sqrt);
      if voice.isPlaying {
        var step := Step(voice, outputRate, pow2);
        var gains := VoiceGains(voice, listener, sqrt);
        voice := MixVoice(buffer, offset, count, voice, Amplify(gains), step);
        mixed := mixed[i := voice];
      }
      assert mixed[..i + 1] == mixed[..i] + [mixed[i]];
      i := i + 1;
    }
    assert mixed[..i] == mixed;
    assert vs[..i] == vs;
  }

  /**
   * `EffekseerSoundMixer`. Sounds are kept by id; voices hold their sound by
   * value, so unloading a sound leaves the voices already playing it alone.
   * `pow2`, `sqrt` and `single` stand for `Math.Pow(2, _)`, `Math.Sqrt` and
   * the IEEE decoding of BinaryReader.ReadSingle.
   */
  class SoundMixer {
    var sounds: map<int, Wav.Sound>
    var voices: seq<Voice>
    var nextId: int
    var listener: Point
    const outputSampleRate: int
    const pow2: real -> real
    const sqrt: real -> real
    const single: seq<Byte> -> real

    /**
     * Ids handed out so far are `1 .. nextId - 1`; every registered sound can
     * be played; every voice in the list is playing, with its cursor at or
     * past the start of its sound.
     */
    ghost predicate Valid()
      reads this
    {
      && outputSampleRate > 0 && (forall x :: pow2(x) > 0.0)
      && nextId >= 1
      && (forall id :: id in sounds ==> 1 <= id < nextId && Playable(sounds[id]))
      && (forall i :: 0 <= i < |voices| ==> VoiceOk(voices[i]) && voices[i].isPlaying)
    }

    constructor(sampleRate: int, pow2: real -> real, sqrt: real -> real, single: seq<Byte> -> real)
      requires sampleRate > 0 && forall x :: pow2(x) > 0.0
      ensures Valid()
      ensures sounds == map[] && voices == [] && nextId == 1 && listener == Point(0.0, 0.0, 20.0)
      ensures outputSampleRate == sampleRate && this.pow2 == pow2 && this.sqrt == sqrt && this.single == single
    {
      sounds := map[];
      voices := [];
      nextId := 1;
      listener := Point(0.0, 0.0, 20.0);
      outputSampleRate := sampleRate;
      this.pow2 := pow2;
      this.sqrt := sqrt;
      this.single := single;
    }

    method SetListenerPosition(x: real, y: real, z: real)
      requires Valid()
      modifies this
      ensures Valid()
      ensures listener == Point(x, y, z)
      ensures sounds == old(sounds) && voices == old(voices) && nextId == old(nextId)
    {
      listener := Point(x, y, z);
    }

    /**
     * Registers the sound decoded from `file` (`None`: no file at the path)
     * under a fresh id. Gives -1, and changes nothing, when the file is
     * missing, does not decode, or declares a negative sample rate.
     */
    method LoadSound(file: Option<seq<Byte>>) returns (id: int)
      requires Valid()
      modifies this
      ensures Valid()
      ensures var d := if file.Some? then Wav.Decode(file.value, single) else None;
        if d.Some? && d.value.sampleRate >= 0 then
          && id == old(nextId) && id !in old(sounds)
          && sounds == old(sounds)[id := d.value] && nextId == old(nextId) + 1
        else
          id == -1 && sounds == old(sounds) && nextId == old(nextId)
      ensures voices == old(voices) && listener == old(listener)
    {
      if file.None? {
        return -1;
      }
      var sound := Wav.Load(file.value, single);
      if sound.None? {
        return -1;
      }
      // a negative rate would run the voice's cursor backwards, before the data
      if sound.value.sampleRate < 0 {
        return -1;
      }
      id := nextId;
      nextId := nextId + 1;
      sounds := sounds[id := sound.value];
    }

    method UnloadSound(id: int)
      requires Valid()
      modifies this
      ensures Valid()
      ensures sounds == old(sounds) - {id}
      ensures voices == old(voices) && nextId == old(nextId) && listener == old(listener)
    {
      if id in sounds {
        sounds := sounds - {id};
      }
    }

    /** Starts a voice of sound `id` at its first frame; nothing for an unknown id. */
    method PlaySound(id: int, volume: real, pan: real, pitch: real, mode3D: bool,
                     x: real, y: real, z: real, distance: real)
      requires Valid()
      modifies this
      ensures Valid()
      ensures id in old(sounds) ==>
        voices == old(voices) + [NewVoice(old(sounds)[id], volume, pan, pitch, mode3D, x, y, z, distance)]
      ensures id !in old(sounds) ==> voices == old(voices)
      ensures sounds == old(sounds) && nextId == old(nextId) && listener == old(listener)
    {
      if id in sounds {
        voices := voices + [NewVoice(sounds[id], volume, pan, pitch, mode3D, x, y, z, distance)];
      }
    }

    /**
     * Adds every playing voice into `buffer[offset ..]`, `count` samples of
     * interleaved stereo, advances the voices, and drops those that finished.
     */
    method Mix(buffer: array<real>, offset: int, count: int)
      requires Valid() && Window(buffer.Length, offset, count)
      modifies this, buffer
      ensures Valid()
      ensures var r := MixVoices(old(buffer[..]), offset, count, old(voices), listener, outputSampleRate, pow2, sqrt);
        buffer[..] == r.0 && voices == Survivors(r.1)
      ensures sounds == old(sounds) && nextId == old(nextId) && listener == old(listener)
    {
      var mixed := MixAll(buffer, offset, count, voices, listener, outputSampleRate, pow2, sqrt);
      voices := Survivors(mixed);
    }
  }

  /**
   * The sample indices `(int)Position` that the inner loop of Mix reads for
   * one voice, for any cursor and step: one per frame until the window is
   * used up or the cursor reaches the end of the sound. With the cursor and
   * the step at or above zero every index names a frame of the sound.
   */
  function ReadIndices(pos: real, step: real, fc: int, frames: nat): (r: seq<int>)
    ensures |r| == Played(pos, step, fc, frames)
    ensures pos >= 0.0 && step >= 0.0 ==> forall i :: 0 <= i < |r| ==> 0 <= r[i] < fc
    decreases frames
  {
    if frames == 0 || pos >= fc as real then []
    else [Trunc(pos)] + ReadIndices(pos + step, step, fc, frames - 1)
  }

  /** A mono voice at the start of a two-frame sound whose rate is minus the output rate reads frame 0, then frame -1. */
  lemma BackwardsFromStart(s: Wav.Sound, outputRate: int, pow2: real -> real)
    requires s.channels == 1 && |s.data| == 2 && 0 < outputRate && s.sampleRate == -outputRate && pow2(0.0) == 1.0
    ensures var v := NewVoice(s, 1.0, 0.0, 0.0, false, 0.0, 0.0, 0.0, 1.0);
      ReadIndices(v.position, Step(v, outputRate, pow2), FrameCount(s), 2) == [0, -1]
  {
    var v := NewVoice(s, 1.0, 0.0, 0.0, false, 0.0, 0.0, 0.0, 1.0);
    assert (-outputRate) as real / outputRate as real == -1.0;
    assert Step(v, outputRate, pow2) == -1.0;
    assert FrameCount(s) == 2;
    assert Trunc(-1.0) == -1;
  }

  /**
   * A file that declares a negative sample rate decodes, and the source's
   * mixer accepts it: its voice's cursor then runs backwards, and on the
   * second frame the loop reads `Data[-1]`, which throws inside Mix.
   */
  lemma NegativeRateReadsBeforeStart(outputRate: int, pow2: real -> real, single: seq<Byte> -> real)
    requires 0 < outputRate < 0x8000_0000 && pow2(0.0) == 1.0
    ensures var d := Wav.Decode(WavWriter.WavFile([0.5, 0.5], -outputRate, 1), single);
      && d.Some? && d.value.sampleRate < 0
      && var v := NewVoice(d.value, 1.0, 0.0, 0.0, false, 0.0, 0.0, 0.0, 1.0);
         ReadIndices(v.position, Step(v, outputRate, pow2), FrameCount(d.value), 2) == [0, -1]
  {
    WavWriter.RoundTrip([0.5, 0.5], -outputRate, 1, single);
    BackwardsFromStart(Wav.Sound(WavWriter.Quantised([0.5, 0.5]), 1, -outputRate), outputRate, pow2);
  }
}
