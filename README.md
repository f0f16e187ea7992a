# EffekseerForYMM4 core, modelled in Dafny

EffekseerForYMM4 lets YukkuriMovieMaker 4 (YMM4) play Effekseer particle effects as a
video effect and as an audio effect. This project models the C# layer between YMM4
and the native Effekseer renderer. The pieces are:

- **Frame synchronisation** (module `FrameSync`). The native renderer is an `Engine`
  object that records every call made to it (`Reset`, `Update(delta)`, `LoadEffect`
  with its result, `PlayEffect`, `SetCameraLookAt`). It reports the effect's length
  through a function of that call trace. Its frame counter, `Clock`, is how far the
  effect started last has played: a `Reset`, a successful load and a play of a loaded
  file each start an effect at frame 0. Both adapters map the timeline to a target frame. When looping,
  they fold the target into the effect's length. Then they rewind with `Reset` when
  the target lies behind `currentFrame`, and step with a single `Update` by what
  remains.
- **The audio adapter** (module `AudioEffect`, class `AudioProcessor`). One `read`:
  - fills the window from the input and clears the rest;
  - starts the renderer and the sound mixer on first use;
  - follows a change of effect file;
  - synchronises to `(Position / 2) / Hz * 60`;
  - lets the mixer add the effect's sounds;
  - scales the window by the master volume.

  `seek` restarts the effect from its head.
- **The video adapter** (module `VideoEffect`, class `VideoProcessor`). This is the
  state part of `Update`:
  - the early return without input;
  - the render size, never below one pixel;
  - creating the renderer on the first call;
  - following a file, with the duration in ticks and its overflow;
  - synchronising even with no file loaded.

  The source keeps `currentFrame` when it loads a new effect, which the engine plays
  from frame 0; the model restarts the count there (see "## Findings").

  The exception thrown when the renderer does not start is the outcome `InitFailed`.
  The renderer is kept all the same, and later updates drive it: with no effect
  manager it refuses every file and reports no length.
- **The sound mixer** (modules `Voices`, `VoiceRendering` and `Mixer`, class
  `SoundMixer`). It keeps a registry of decoded sounds, a list of voices and the
  listener position. `Mix` adds every playing voice into a window of interleaved
  stereo samples:
  - 2D pan or 3D attenuation and pan;
  - a nearest-sample cursor at `2^pitch * rate / outputRate`.

  It then drops the voices that finished.
- **The WAV decoder** (module `Wav`). `WaveReader.Load` walks the RIFF chunks,
  keeps the last `fmt ` and the first `data`, and converts 16-bit and 8-bit PCM and
  32-bit float. Every path on which the source returns `null`, or throws and then
  returns `null`, is `None`.
- **From the audio tests**:
  - the `SaveWav` serialiser (module `WavWriter`), with its round trip through the
    decoder;
  - the `SilentSource` input stream (module `SilentStream`);
  - the five-second pull loop (module `PullTest`).

Work done in place stays in place in the model:
- engine calls, mixer state and processor fields are class fields updated by methods;
- the output buffers are arrays;
- the decoder's and the serialiser's loops are loops.

Each method is proved against a specification function: `Render`/`Advance`,
`MixVoices`, `Survivors`, `Scan`, `Samples`, `Decode`, `WavFile`, `SyncCalls`/`Synced`,
`FileChanged`, `Synchronised`, `FileTaken` and `Tracked`. Lemmas then state what those
functions guarantee.

Things outside the C# code become parameters:
- the engine's answers (`starts`, `accepts`, `totalFrame`);
- `Math.Pow(2, _)` as `pow2`;
- `Math.Sqrt` as `sqrt`;
- the IEEE decoding of `ReadSingle` as `single`;
- what the host supplies per call (`Host`, `Request`).

Floating point is exact real arithmetic.

## Model

| member | source | states |
|---|---|---|
| Common.Trunc | EffekseerForYMM4.Tests/EffekseerAudioEffectTest/EffekseerAudioEffectTest.cs:169 | a C# `(int)`/`(long)` cast of a double: the integer at most one away from `x`, toward zero |
| Common.Clamp | EffekseerForYMM4/EffekseerAudioEffect/EffekseerSound.cs:200 | `Math.Max(lo, Math.Min(hi, x))` lies in `[lo, hi]` and is `x` when `x` is already inside |
| Wav.I16 | EffekseerForYMM4/EffekseerAudioEffect/EffekseerSound.cs:290-295 | `ReadInt16` gives a value in the signed 16-bit range |
| Wav.I32 | EffekseerForYMM4/EffekseerAudioEffect/EffekseerSound.cs:279 | `ReadInt32` gives a value in the signed 32-bit range |
| Wav.ReadFormat | EffekseerForYMM4/EffekseerAudioEffect/EffekseerSound.cs:290-295 | the channel count and bits per sample are signed 16-bit values; the tag is PCM, or IEEE float, exactly when the first two body bytes are `01 00`, or `03 00` |
| Wav.ChunkEnd | EffekseerForYMM4/EffekseerAudioEffect/EffekseerSound.cs:281-284 | the next chunk starts 8 header bytes plus the declared size on, one more for an odd size, so always an even distance from this one |
| Wav.Record | EffekseerForYMM4/EffekseerAudioEffect/EffekseerSound.cs:286-305 | a `fmt ` chunk of at least 16 bytes replaces the format and nothing else does; the first `data` chunk sets the data start and size, and later ones leave them alone |
| Wav.Scan | EffekseerForYMM4/EffekseerAudioEffect/EffekseerSound.cs:274-310 | the chunk walk: the `data` start it finds lies in the file, the first `data` chunk is never replaced, and a channel count below 0x8000 stays below it |
| Wav.ScanStep | EffekseerForYMM4/EffekseerAudioEffect/EffekseerSound.cs:278-309 | one chunk that ends inside the file moves the walk to its padded end, with that chunk recorded |
| Wav.Sample | EffekseerForYMM4/EffekseerAudioEffect/EffekseerSound.cs:323-351 | a PCM sample (16-bit `raw/32768`, 8-bit `(b-128)/128`) lies in `[-1, 1)` |
| Wav.Samples | EffekseerForYMM4/EffekseerAudioEffect/EffekseerSound.cs:320-352 | exactly `n` samples; all zero for an encoding that is not converted; PCM samples in `[-1, 1)` |
| Wav.SamplesSnoc | EffekseerForYMM4/EffekseerAudioEffect/EffekseerSound.cs:327-331 | one more loop turn appends the sample read `width` bytes further on |
| Wav.Decode | EffekseerForYMM4/EffekseerAudioEffect/EffekseerSound.cs:252-363 | a file under 12 bytes, or without `RIFF`…`WAVE`, gives `None`, and any sound comes from a file with that header; any decoded sound has 1 to 0x7FFF channels |
| Wav.DecodeCases | EffekseerForYMM4/EffekseerAudioEffect/EffekseerSound.cs:313-354 | past the header: no sound unless the walk finds channels, at least 8 bits per sample and a non-empty `data` chunk; an encoding not converted gives `dataSize / width` zero samples; a converted one gives a sound exactly when its samples fit in the file; a sound has `dataSize / width` samples and the format's channels and rate |
| Wav.Load | EffekseerForYMM4/EffekseerAudioEffect/EffekseerSound.cs:252-363 | the step-by-step loader gives exactly `Decode` of the file |
| Wav.WalkChunks | EffekseerForYMM4/EffekseerAudioEffect/EffekseerSound.cs:274-310 | the `while` walk ends with exactly `Scan` from byte 12 |
| Wav.ReadSamples | EffekseerForYMM4/EffekseerAudioEffect/EffekseerSound.cs:313-352 | `None` when a converted encoding's `dataSize / width` samples pass the end of the file, otherwise those samples |
| Wav.Convert | EffekseerForYMM4/EffekseerAudioEffect/EffekseerSound.cs:323-351 | the conversion loop fills the array with exactly `Samples`, or stops with `None` at the end of the file |
| WavWriter.LE16 | EffekseerForYMM4.Tests/EffekseerAudioEffectTest/EffekseerAudioEffectTest.cs:137-142 | a `short` is written as two bytes; `ReadLE16` reads them back |
| WavWriter.LE32 | EffekseerForYMM4.Tests/EffekseerAudioEffectTest/EffekseerAudioEffectTest.cs:131-146 | an `int` is written as four bytes; `ReadLE32` reads them back |
| WavWriter.ToPcm16 | EffekseerForYMM4.Tests/EffekseerAudioEffectTest/EffekseerAudioEffectTest.cs:151 | clamp, scale and truncate: in `[-32767, 32767]`, less than one away from `x * 32767` inside `[-1, 1]`, saturating outside it |
| WavWriter.Header | EffekseerForYMM4.Tests/EffekseerAudioEffectTest/EffekseerAudioEffectTest.cs:129-146 | the header is 44 bytes |
| WavWriter.PcmBytes | EffekseerForYMM4.Tests/EffekseerAudioEffectTest/EffekseerAudioEffectTest.cs:149-153 | two bytes per sample |
| WavWriter.SaveWav | EffekseerForYMM4.Tests/EffekseerAudioEffectTest/EffekseerAudioEffectTest.cs:124-155 | the bytes written are the header and then each sample's 16 bits, `44 + 2n` bytes in all |
| WavWriter.ReadLE16 | EffekseerForYMM4.Tests/EffekseerAudioEffectTest/EffekseerAudioEffectTest.cs:152 | `ReadInt16` of a written `short` is the value, for every 16-bit value |
| WavWriter.ReadLE32 | EffekseerForYMM4.Tests/EffekseerAudioEffectTest/EffekseerAudioEffectTest.cs:131 | `ReadInt32` of a written `int` is the value, for every 32-bit value |
| WavWriter.HeaderLayout | EffekseerForYMM4.Tests/EffekseerAudioEffectTest/EffekseerAudioEffectTest.cs:129-146 | each header field sits at its RIFF offset, in the order written |
| WavWriter.PcmBytesAt | EffekseerForYMM4.Tests/EffekseerAudioEffectTest/EffekseerAudioEffectTest.cs:149-153 | sample `i` is at bytes `2i` and `2i + 1` of the sample area |
| WavWriter.Quantised | EffekseerForYMM4.Tests/EffekseerAudioEffectTest/EffekseerAudioEffectTest.cs:151 | what the decoder should give back for each written sample, strictly inside `(-1, 1)` |
| WavWriter.ScanFmtChunk | EffekseerForYMM4.Tests/EffekseerAudioEffectTest/EffekseerAudioEffectTest.cs:135-142 | the written 16-byte `fmt ` chunk is read and the walk moves on to byte 36 |
| WavWriter.ScanDataChunk | EffekseerForYMM4.Tests/EffekseerAudioEffectTest/EffekseerAudioEffectTest.cs:145-146 | the written `data` chunk ends the walk with its start (44) and size |
| WavWriter.ReadWrittenFormat | EffekseerForYMM4.Tests/EffekseerAudioEffectTest/EffekseerAudioEffectTest.cs:135-146 | the decoder reads back tag 1, the channels, the rate, 16 bits and the data size |
| WavWriter.ScanWritten | EffekseerForYMM4.Tests/EffekseerAudioEffectTest/EffekseerAudioEffectTest.cs:129-146 | any file that starts with a written header passes the RIFF check and walks to that format and data chunk |
| WavWriter.RoundTrip | EffekseerForYMM4.Tests/EffekseerAudioEffectTest/EffekseerAudioEffectTest.cs:124-155 | decoding what SaveWav wrote gives the channels, the rate and each sample quantised to 16 bits |
| WavWriter.EmptyIsRefused | EffekseerForYMM4/EffekseerAudioEffect/EffekseerSound.cs:313 | a written file with no samples has an empty `data` chunk and does not decode |
| WavWriter.TruncatedIsRefused | EffekseerForYMM4/EffekseerAudioEffect/EffekseerSound.cs:327-331 | a written file missing its last byte does not decode |
| WavWriter.ShortDataIsRefused | EffekseerForYMM4/EffekseerAudioEffect/EffekseerSound.cs:327-331 | any file that holds fewer data bytes than its written header declares does not decode |
| Voices.NewVoice | EffekseerForYMM4/EffekseerAudioEffect/EffekseerSound.cs:36-46 | a new voice plays its sound from frame 0 |
| Voices.FrameCount | EffekseerForYMM4/EffekseerAudioEffect/EffekseerSound.cs:215 | `Data.Length / Channels` is never negative |
| Voices.Step | EffekseerForYMM4/EffekseerAudioEffect/EffekseerSound.cs:135-138 | the cursor step runs forward for a rate of at least 0 and backward for a negative rate |
| Voices.Slots | EffekseerForYMM4/EffekseerAudioEffect/EffekseerSound.cs:213 | the frames `j = 0, 2, …` below `count` cover `count` samples, plus one for an odd count |
| Voices.Amplify | EffekseerForYMM4/EffekseerAudioEffect/EffekseerSound.cs:237-238 | the left sample is scaled by the left gain and the right sample by the right gain |
| Voices.Render | EffekseerForYMM4/EffekseerAudioEffect/EffekseerSound.cs:213-241 | the inner loop on the buffer keeps its length; what it writes is stated by `RenderAdds` and `RenderUnchanged` |
| Voices.AddFrame | EffekseerForYMM4/EffekseerAudioEffect/EffekseerSound.cs:237-238 | the buffer keeps its length; `AddFrameAt` states the two sums |
| Voices.AddFrameAt | EffekseerForYMM4/EffekseerAudioEffect/EffekseerSound.cs:237-238 | `+=` on the two samples at `at`, and nothing else changes |
| Voices.RenderStep | EffekseerForYMM4/EffekseerAudioEffect/EffekseerSound.cs:221-240 | one loop turn: the frame under the cursor is added and the cursor moves one step |
| Voices.RenderAtEnd | EffekseerForYMM4/EffekseerAudioEffect/EffekseerSound.cs:215-219 | a cursor at or past the end writes nothing |
| Voices.RenderNone | EffekseerForYMM4/EffekseerAudioEffect/EffekseerSound.cs:213 | no frames left writes nothing |
| Voices.Advance | EffekseerForYMM4/EffekseerAudioEffect/EffekseerSound.cs:213-241 | the inner loop on the voice changes only its cursor and `IsPlaying`, never moves the cursor back, and keeps it at or above 0 |
| Voices.AdvanceAtEnd | EffekseerForYMM4/EffekseerAudioEffect/EffekseerSound.cs:215-219 | a voice found at the end of its sound is marked finished without moving |
| Voices.Cursor | EffekseerForYMM4/EffekseerAudioEffect/EffekseerSound.cs:240 | with a step of at least 0 the cursor never moves back |
| Voices.CursorClosed | EffekseerForYMM4/EffekseerAudioEffect/EffekseerSound.cs:240 | after `m` frames the cursor is `p + m * step` |
| Voices.CursorNext | EffekseerForYMM4/EffekseerAudioEffect/EffekseerSound.cs:240 | starting one step later is one frame more |
| Voices.Played | EffekseerForYMM4/EffekseerAudioEffect/EffekseerSound.cs:213-241 | the frames played: each starts below the end of the sound, and when the loop stops early the next cursor is at or past it |
| Voices.Frame | EffekseerForYMM4/EffekseerAudioEffect/EffekseerSound.cs:221-235 | mono and stereo frames are samples of the sound's data, a mono frame is the same sample on both sides, and other channel counts are silent |
| Voices.PanGains | EffekseerForYMM4/EffekseerAudioEffect/EffekseerSound.cs:209-210 | the 2D pan law: the side the pan points to, or both at centre, keeps the full volume |
| Voices.Attenuated | EffekseerForYMM4/EffekseerAudioEffect/EffekseerSound.cs:180-192 | the volume inside `max(0.1, Distance)`; past it, gain times distance is volume times the reference distance |
| Voices.Gains3D | EffekseerForYMM4/EffekseerAudioEffect/EffekseerSound.cs:159-204 | one side always keeps the attenuated volume; a voice on the listener is unpanned |
| Voices.VoiceGains | EffekseerForYMM4/EffekseerAudioEffect/EffekseerSound.cs:145-210 | a 2D voice keeps its full volume on the side its pan points to |
| Voices.VoiceGainsBounds | EffekseerForYMM4/EffekseerAudioEffect/EffekseerSound.cs:145-210 | with a volume of at least 0 and a 2D pan within `[-1, 1]`, both gains Mix applies lie in `[0, volume]` |
| Voices.FrameReads | EffekseerForYMM4/EffekseerAudioEffect/EffekseerSound.cs:221-235 | mono reads `Data[(int)pos]` twice, stereo the pair at `2 * (int)pos`, other channel counts are silent |
| Voices.PanGainsBounds | EffekseerForYMM4/EffekseerAudioEffect/EffekseerSound.cs:209-210 | for a volume of at least 0 and `|pan| <= 1`, both gains lie in `[0, volume]` and the side panned to keeps full volume; for a positive volume they are equal only at centre |
| Voices.AttenuationBounds | EffekseerForYMM4/EffekseerAudioEffect/EffekseerSound.cs:180-192 | no attenuation inside `max(0.1, Distance)`; past it the gain is `volume * refDist / dist`, in `[0, volume]` |
| Voices.AttenuationHalves | EffekseerForYMM4/EffekseerAudioEffect/EffekseerSound.cs:180-192 | full volume at the reference distance, half at twice it |
| Voices.Gains3DBounds | EffekseerForYMM4/EffekseerAudioEffect/EffekseerSound.cs:180-204 | both 3D gains lie in `[0, volume]` wherever the voice is |
| Voices.Gains3DSides | EffekseerForYMM4/EffekseerAudioEffect/EffekseerSound.cs:197-204 | a voice straight ahead is centred; one fully to the right is silent on the left, and the other way round |
| VoiceRendering.AdvanceState | EffekseerForYMM4/EffekseerAudioEffect/EffekseerSound.cs:213-241 | after the loop the cursor is `Played` steps on, and the voice still plays exactly when it used every frame |
| VoiceRendering.RenderUnchanged | EffekseerForYMM4/EffekseerAudioEffect/EffekseerSound.cs:213-241 | every index outside the frames played is left as it was |
| VoiceRendering.RenderFirst | EffekseerForYMM4/EffekseerAudioEffect/EffekseerSound.cs:237-238 | the first frame played is added at `offset` and `offset + 1` |
| VoiceRendering.RenderAddsAt | EffekseerForYMM4/EffekseerAudioEffect/EffekseerSound.cs:213-241 | played frame `m` adds the amplified samples under cursor `m` to what the buffer held |
| VoiceRendering.RenderAdds | EffekseerForYMM4/EffekseerAudioEffect/EffekseerSound.cs:213-241 | every played frame is added in this way, with no clearing or clipping |
| VoiceRendering.MonoReproduced | EffekseerForYMM4/EffekseerAudioEffect/EffekseerSound.cs:125-241 | a mono sound at the output rate, pitch 0, full volume and centre pan, mixed into silence, comes out sample for sample on both channels and nothing else is written; the voice finishes exactly when the sound ran out inside the window |
| VoiceRendering.MonoWritten | EffekseerForYMM4/EffekseerAudioEffect/EffekseerSound.cs:226-238 | at unit gain and step, the first frames hold the mono samples on both channels |
| VoiceRendering.UnitRate | EffekseerForYMM4/EffekseerAudioEffect/EffekseerSound.cs:135-210 | same rate at pitch 0 steps one frame per output frame; full volume at centre pan gives unit gains |
| VoiceRendering.UnitPlayed | EffekseerForYMM4/EffekseerAudioEffect/EffekseerSound.cs:213-219 | stepping by one from 0, a sound of `n` frames plays `min(frames, n)` |
| VoiceRendering.MonoSample | EffekseerForYMM4/EffekseerAudioEffect/EffekseerSound.cs:226-229 | mono frame `m` is sample `m` on both channels |
| Mixer.MixVoices | EffekseerForYMM4/EffekseerAudioEffect/EffekseerSound.cs:129-242 | the voice loop keeps the buffer length and the voice count, and every voice stays valid |
| Mixer.MixVoicesStep | EffekseerForYMM4/EffekseerAudioEffect/EffekseerSound.cs:129-242 | one more voice is rendered and advanced if playing, and skipped otherwise |
| Mixer.MixAdvancesEach | EffekseerForYMM4/EffekseerAudioEffect/EffekseerSound.cs:129-242 | each voice advances at its own step whatever the others do, and finished voices are left alone |
| Mixer.MixStaysInWindow | EffekseerForYMM4/EffekseerAudioEffect/EffekseerSound.cs:213-238 | Mix writes nothing outside `offset .. offset + 2 * Slots(count)`, which is `offset + count` for even counts |
| Mixer.Survivors | EffekseerForYMM4/EffekseerAudioEffect/EffekseerSound.cs:245 | `RemoveAll(!IsPlaying)` keeps only playing voices, and only valid ones from a valid list |
| Mixer.SurvivorsConcat | EffekseerForYMM4/EffekseerAudioEffect/EffekseerSound.cs:245 | pruning keeps the relative order |
| Mixer.SurvivorsMembers | EffekseerForYMM4/EffekseerAudioEffect/EffekseerSound.cs:245 | a voice survives if and only if it was in the list and is playing |
| Mixer.SurvivorsOfPlaying | EffekseerForYMM4/EffekseerAudioEffect/EffekseerSound.cs:245 | a list of playing voices loses nothing |
| Mixer.MixVoice | EffekseerForYMM4/EffekseerAudioEffect/EffekseerSound.cs:213-241 | the `j` loop leaves the array as `Render` and the voice as `Advance` |
| Mixer.MixFrame | EffekseerForYMM4/EffekseerAudioEffect/EffekseerSound.cs:221-240 | one loop turn, in place: what is left to render and advance is one frame shorter |
| Mixer.AddAt | EffekseerForYMM4/EffekseerAudioEffect/EffekseerSound.cs:237-238 | the two `+=` in place are `AddFrame` |
| Mixer.MixAll | EffekseerForYMM4/EffekseerAudioEffect/EffekseerSound.cs:129-242 | the `for` over the voices leaves the buffer and the voices as `MixVoices` |
| Mixer.SoundMixer.constructor | EffekseerForYMM4/EffekseerAudioEffect/EffekseerSound.cs:49-66 | no sounds or voices, first id 1, listener at `(0, 0, 20)`, the given output rate |
| Mixer.SoundMixer.SetListenerPosition | EffekseerForYMM4/EffekseerAudioEffect/EffekseerSound.cs:68-76 | the listener moves, and nothing else changes |
| Mixer.SoundMixer.LoadSound | EffekseerForYMM4/EffekseerAudioEffect/EffekseerSound.cs:78-98 | a decodable file is registered under the next id, which was unused; otherwise `-1` and nothing changes (corrected: a negative rate is refused too) |
| Mixer.SoundMixer.UnloadSound | EffekseerForYMM4/EffekseerAudioEffect/EffekseerSound.cs:100-109 | the id is removed if present; voices playing it go on |
| Mixer.SoundMixer.PlaySound | EffekseerForYMM4/EffekseerAudioEffect/EffekseerSound.cs:111-123 | a known id appends a new voice at frame 0; an unknown one does nothing |
| Mixer.SoundMixer.Mix | EffekseerForYMM4/EffekseerAudioEffect/EffekseerSound.cs:125-247 | the buffer and voices become `MixVoices`, then only the surviving voices are kept; the invariant holds (every voice playing) |
| Mixer.ReadIndices | EffekseerForYMM4/EffekseerAudioEffect/EffekseerSound.cs:215-234 | one index per played frame; with cursor and step at or above 0 every index names a frame of the sound |
| Mixer.BackwardsFromStart | EffekseerForYMM4/EffekseerAudioEffect/EffekseerSound.cs:135-138 | a rate of minus the output rate reads frame 0, then frame -1 |
| Mixer.NegativeRateReadsBeforeStart | EffekseerForYMM4/EffekseerAudioEffect/EffekseerSound.cs:135-234 | a WAV declaring a negative rate decodes, and its voice reads `Data[-1]` on the second frame |
| FrameSync.Engine.constructor | EffekseerForYMM4/EffekseerAudioEffect/EffekseerAudioEffectProcessor.cs:187 | a new renderer has made no calls |
| FrameSync.Engine.Initialize | EffekseerForYMM4/EffekseerAudioEffect/EffekseerAudioEffectProcessor.cs:190 | the renderer starts or not, as the engine decides |
| FrameSync.Engine.Reset | EffekseerForYMM4/EffekseerAudioEffect/EffekseerAudioEffectProcessor.cs:136 | records a `Reset` |
| FrameSync.Engine.Update | EffekseerForYMM4/EffekseerAudioEffect/EffekseerAudioEffectProcessor.cs:144 | records an `Update(delta)` |
| FrameSync.Engine.LoadEffect | EffekseerForNative/src/Core/EffectsManager.cpp:152-154 | records the load with its result; a renderer that did not start refuses every file, one that started loads what the engine accepts |
| FrameSync.EngineAccepts | EffekseerForNative/src/Core/EffectsManager.cpp:152-154 | the files a renderer loads are exactly those the engine accepts, and none unless it started |
| FrameSync.Engine.PlayEffect | EffekseerForYMM4/EffekseerAudioEffect/EffekseerAudioEffectProcessor.cs:69 | records a `PlayEffect` |
| FrameSync.Engine.SetCameraLookAt | EffekseerForYMM4/EffekseerAudioEffect/EffekseerAudioEffectProcessor.cs:154 | records the camera position |
| FrameSync.Engine.GetTotalFrame | EffekseerForNative/src/Wrapper/EffekseerRenderer.cpp:179-184 | the length the engine reports for its calls so far, and 0 from a renderer that did not start |
| FrameSync.EngineFrames | EffekseerForNative/src/Wrapper/EffekseerRenderer.cpp:179-184 | the length a renderer reports is the engine's when it started and 0 otherwise |
| FrameSync.FMod | EffekseerForYMM4/EffekseerAudioEffect/EffekseerAudioEffectProcessor.cs:130 | C# double `%`: in `[0, m)` for a non-negative target, in `(-m, 0]` for a negative one |
| FrameSync.Rem | EffekseerForYMM4/EffekseerAudioEffect/EffekseerAudioEffectProcessor.cs:130 | the remainder of a non-negative target lies in `[0, m)` |
| FrameSync.FModSmall | EffekseerForYMM4/EffekseerAudioEffect/EffekseerAudioEffectProcessor.cs:128-131 | a target already inside the effect is not moved |
| FrameSync.FModPeriod | EffekseerForYMM4/EffekseerAudioEffect/EffekseerAudioEffectProcessor.cs:128-131 | any whole number of effect lengths added folds to the same frame |
| FrameSync.LoopTarget | EffekseerForYMM4/EffekseerAudioEffect/EffekseerAudioEffectProcessor.cs:128-131 | looping with a length in `(0, int.MaxValue)` folds the target into `[0, length)`; otherwise the target is unchanged |
| FrameSync.SyncCalls | EffekseerForYMM4/EffekseerAudioEffect/EffekseerAudioEffectProcessor.cs:134-146 | `Reset` is issued if and only if the target is behind; the only other call is one positive `Update` |
| FrameSync.Synced | EffekseerForYMM4/EffekseerAudioEffect/EffekseerAudioEffectProcessor.cs:134-146 | afterwards `currentFrame` is the target, for any target of at least 0 |
| FrameSync.Sync | EffekseerForYMM4/EffekseerAudioEffect/EffekseerAudioEffectProcessor.cs:134-146 | the rewind-or-step code makes exactly `SyncCalls` and ends at `Synced` |
| FrameSync.SyncTrack | EffekseerForYMM4/EffekseerAudioEffect/EffekseerAudioEffectProcessor.cs:125-146 | reaches the folded target, keeps `currentFrame` at or above 0, and only appends at most two calls |
| FrameSync.RepeatIsQuiet | EffekseerForYMM4/EffekseerAudioEffect/EffekseerAudioEffectProcessor.cs:134-146 | a second sync to the same target makes no call and stays put |
| FrameSync.ClockAfterReset | EffekseerForYMM4/EffekseerAudioEffect/EffekseerAudioEffectProcessor.cs:136 | after `Reset` the engine's frame counter is 0 |
| FrameSync.ClockAfterUpdate | EffekseerForYMM4/EffekseerAudioEffect/EffekseerAudioEffectProcessor.cs:144 | `Update(d)` moves the counter on by `d` |
| FrameSync.ClockAfterOther | EffekseerForYMM4/EffekseerAudioEffect/EffekseerAudioEffectProcessor.cs:154 | a camera move leaves the counter alone |
| FrameSync.ClockAfterLoad | EffekseerForNative/src/Wrapper/EffekseerRenderer.cpp:54-69 | a successful load plays the new effect from frame 0, so the counter is 0; a refused load leaves it alone |
| FrameSync.ClockAfterPlay | EffekseerForNative/src/Core/EffectsManager.cpp:170-191 | playing a file loaded before starts it at frame 0; playing one never loaded finds nothing and leaves the counter alone |
| FrameSync.SyncKeepsClock | EffekseerForYMM4/EffekseerAudioEffect/EffekseerAudioEffectProcessor.cs:134-146 | if the engine's counter showed `currentFrame`, after syncing it shows the target |
| FrameSync.SyncTrackKeepsClock | EffekseerForYMM4/EffekseerAudioEffect/EffekseerAudioEffectProcessor.cs:125-146 | the same for a whole sync with the loop fold |
| FrameSync.TotalDeltaConcat | EffekseerForYMM4/EffekseerAudioEffect/EffekseerAudioEffectProcessor.cs:141-146 | the Update deltas of two call runs add up |
| FrameSync.ForwardStep | EffekseerForYMM4/EffekseerAudioEffect/EffekseerAudioEffectProcessor.cs:134-146 | a sync forward, or to the same frame, steps the engine by exactly the distance |
| FrameSync.ForwardRun | EffekseerForYMM4/EffekseerAudioEffect/EffekseerAudioEffectProcessor.cs:134-146 | over non-decreasing targets: no `Reset`, the last target is reached, and the deltas add up to the distance covered |
| EffectPath.Extension | EffekseerForYMM4/EffekseerAudioEffect/EffekseerAudioEffectProcessor.cs:108 | `Path.GetExtension`: empty, or a dot and then a suffix of the path with no dot or separator |
| EffectPath.ExtensionBefore | EffekseerForYMM4/EffekseerAudioEffect/EffekseerAudioEffectProcessor.cs:108 | the backward scan behind `Extension` |
| EffectPath.Lower | EffekseerForYMM4/EffekseerAudioEffect/EffekseerAudioEffectProcessor.cs:108 | `ToLower` on ASCII: `A`–`Z` become `a`–`z`, and every other character is kept (see Left out) |
| EffectPath.ExtensionOfName | EffekseerForYMM4/EffekseerAudioEffect/EffekseerAudioEffectProcessor.cs:108 | the extension of `stem + ".ext"` is `.ext`, whatever the stem |
| EffectPath.ExtensionScan | EffekseerForYMM4/EffekseerAudioEffect/EffekseerAudioEffectProcessor.cs:108 | the scan finds the last dot of the name |
| EffectPath.IsEffectFile | EffekseerForYMM4/EffekseerAudioEffect/EffekseerAudioEffectProcessor.cs:108-109 | an effect file's path ends in `.efk` or `.efkefc`, in any letter case |
| EffectPath.EffectFileBySuffix | EffekseerForYMM4/EffekseerAudioEffect/EffekseerAudioEffectProcessor.cs:108-109 | a path is an effect file exactly when it ends in `.efk` or `.efkefc`, in any letter case |
| EffectPath.EffectFilesAnyCase | EffekseerForYMM4/EffekseerAudioEffect/EffekseerAudioEffectProcessor.cs:108-109 | `.efk` and `.efkefc` are accepted in any letter case |
| EffectPath.OtherFilesRefused | EffekseerForYMM4/EffekseerAudioEffect/EffekseerAudioEffectProcessor.cs:108-109 | `.wav` and `.efk.bak` are not effect files |
| SilentStream.SilentSource.constructor | EffekseerForYMM4.Tests/EffekseerAudioEffectTest/EffekseerAudioEffectTest.cs:166-170 | `length` is the duration in whole frames at `hz`; position 0 |
| SilentStream.SilentSource.Read | EffekseerForYMM4.Tests/EffekseerAudioEffectTest/EffekseerAudioEffectTest.cs:172-183 | clears the window only, reports `min(count, remaining)`, and moves the position by that |
| SilentStream.SilentSource.Seek | EffekseerForYMM4.Tests/EffekseerAudioEffectTest/EffekseerAudioEffectTest.cs:185-188 | frames become stereo samples: position `2 * frames` |
| SilentStream.SilentSource.SeekTime | EffekseerForYMM4.Tests/EffekseerAudioEffectTest/EffekseerAudioEffectTest.cs:190-193 | whole frames at `hz`, then doubled |
| AudioEffect.Half | EffekseerForYMM4/EffekseerAudioEffect/EffekseerAudioEffectProcessor.cs:100 | `long / 2` truncates toward zero |
| AudioEffect.AudioTarget | EffekseerForYMM4/EffekseerAudioEffect/EffekseerAudioEffectProcessor.cs:100-101 | the target frame is at least 0 for a position of at least 0, and 0 at the start |
| AudioEffect.OneSecondIsSixtyFrames | EffekseerForYMM4/EffekseerAudioEffect/EffekseerAudioEffectProcessor.cs:100-101 | `2 * Hz` more samples move the target on by exactly 60 frames |
| AudioEffect.FileChanged | EffekseerForYMM4/EffekseerAudioEffect/EffekseerAudioEffectProcessor.cs:104-121 | the path is always recorded. A new effect file is offered to the engine and restarts the count on success. An empty path resets. A path already seen changes nothing |
| AudioEffect.FileChangedKeepsStep | EffekseerForYMM4/EffekseerAudioEffect/EffekseerAudioEffectProcessor.cs:104-121 | a change of file keeps the engine's counter equal to `currentFrame`: a load and a reset both restart them at 0 |
| AudioEffect.FileSeenOnce | EffekseerForYMM4/EffekseerAudioEffect/EffekseerAudioEffectProcessor.cs:104-121 | following the same path twice is following it once: a refused file is not retried |
| AudioEffect.Synchronised | EffekseerForYMM4/EffekseerAudioEffect/EffekseerAudioEffectProcessor.cs:123-158 | with a path recorded the engine reaches the folded target and the camera is placed last; with none nothing happens |
| AudioEffect.Zeroed | EffekseerForYMM4/EffekseerAudioEffect/EffekseerAudioEffectProcessor.cs:79-85 | the window is cleared and the rest is kept |
| AudioEffect.Volumed | EffekseerForYMM4/EffekseerAudioEffect/EffekseerAudioEffectProcessor.cs:172-178 | every sample of the window is multiplied by the volume and the rest of the buffer is kept; `UnitVolume` shows full volume changes nothing |
| AudioEffect.UnitVolume | EffekseerForYMM4/EffekseerAudioEffect/EffekseerAudioEffectProcessor.cs:170-178 | skipping the loop at volume 1 changes nothing |
| AudioEffect.ApplyVolume | EffekseerForYMM4/EffekseerAudioEffect/EffekseerAudioEffectProcessor.cs:172-178 | every window sample is multiplied by the master volume, in place |
| AudioEffect.AudioProcessor.Hz | EffekseerForYMM4/EffekseerAudioEffect/EffekseerAudioEffectProcessor.cs:45 | 44100 without input |
| AudioEffect.AudioProcessor.Duration | EffekseerForYMM4/EffekseerAudioEffect/EffekseerAudioEffectProcessor.cs:48 | never negative for a duration and rate of at least 0 |
| AudioEffect.AudioProcessor.constructor | EffekseerForYMM4/EffekseerAudioEffect/EffekseerAudioEffectProcessor.cs:50-54 | no input, renderer or mixer; no path; frame 0 |
| AudioEffect.AudioProcessor.SetInput | EffekseerForYMM4.Tests/EffekseerAudioEffectTest/EffekseerAudioEffectTest.cs:29 | the input is set and nothing else changes |
| AudioEffect.AudioProcessor.Initialize | EffekseerForYMM4/EffekseerAudioEffect/EffekseerAudioEffectProcessor.cs:183-229 | a new renderer; when it starts, a mixer at `Hz` and the camera at `(0, 0, 20)`; when it fails, no mixer and another try next read |
| AudioEffect.AudioProcessor.FillFromInput | EffekseerForYMM4/EffekseerAudioEffect/EffekseerAudioEffectProcessor.cs:79-85 | the window ends up cleared and the input moves on by what it read |
| AudioEffect.AudioProcessor.CheckFile | EffekseerForYMM4/EffekseerAudioEffect/EffekseerAudioEffectProcessor.cs:104-121 | the fields and engine calls become `FileChanged` |
| AudioEffect.AudioProcessor.SyncTimeline | EffekseerForYMM4/EffekseerAudioEffect/EffekseerAudioEffectProcessor.cs:123-158 | they become `Synchronised`, and the mixer's listener follows the camera |
| AudioEffect.AudioProcessor.Follow | EffekseerForYMM4/EffekseerAudioEffect/EffekseerAudioEffectProcessor.cs:104-158 | file change, then sync to `AudioTarget(Position, Hz)` |
| AudioEffect.AudioProcessor.Sound | EffekseerForYMM4/EffekseerAudioEffect/EffekseerAudioEffectProcessor.cs:160-178 | mix, then master volume |
| AudioEffect.AudioProcessor.Process | EffekseerForYMM4/EffekseerAudioEffect/EffekseerAudioEffectProcessor.cs:94-178 | the state follows the file and the timeline, and the window is mixed and scaled |
| AudioEffect.AudioProcessor.Read | EffekseerForYMM4/EffekseerAudioEffect/EffekseerAudioEffectProcessor.cs:76-181 | always reports `count`; the renderer is running afterwards exactly when it was before or starts now. Without a running renderer the window is only cleared and the state kept. Otherwise the state follows the file and the timeline from the trace of a renderer just started, and the window is mixed and scaled |
| AudioEffect.AudioProcessor.Seek | EffekseerForYMM4/EffekseerAudioEffect/EffekseerAudioEffectProcessor.cs:57-73 | the input moves to `2 * position`, and the engine rewinds and replays the recorded effect; the processor stays valid |
| AudioEffect.SeekCalls | EffekseerForYMM4/EffekseerAudioEffect/EffekseerAudioEffectProcessor.cs:57-73 | `Reset` first, then `PlayEffect` of the recorded path if and only if it is non-empty |
| AudioEffect.SeekRestartsClock | EffekseerForYMM4/EffekseerAudioEffect/EffekseerAudioEffectProcessor.cs:57-73 | after a seek the engine's counter is 0 |
| AudioEffect.SeekThenForward | EffekseerForYMM4/EffekseerAudioEffect/EffekseerAudioEffectProcessor.cs:57-73 | since `currentFrame` is kept, a forward read after a seek leaves the engine at `target - currentFrame`: playback restarts from the effect's head |
| VideoEffect.Extent | EffekseerForYMM4/EffekseerVideoEffect/EffekseerVideoEffectProcessor.cs:94-101 | `(int)Math.Max(1, x)` is at least 1 and the whole part of `x` from 1 up |
| VideoEffect.Size | EffekseerForYMM4/EffekseerVideoEffect/EffekseerVideoEffectProcessor.cs:90-102 | the render size is never below 1×1 |
| VideoEffect.Ticks | EffekseerForYMM4/EffekseerVideoEffect/EffekseerVideoEffectProcessor.cs:146 | `TimeSpan.FromSeconds(frames / fps)` overflows if and only if the ticks leave `long` or `fps` is 0; otherwise it truncates |
| VideoEffect.LoadsNow | EffekseerForYMM4/EffekseerVideoEffect/EffekseerVideoEffectProcessor.cs:132-137 | a file loads now exactly when it is new, has an effect extension and the engine accepts it; the empty-path check never decides on its own |
| VideoEffect.FileTaken | EffekseerForYMM4/EffekseerVideoEffect/EffekseerVideoEffectProcessor.cs:132-154 | a new path is recorded only when it loads or is empty; only effect files are offered; a load restarts the count at 0 (corrected, see Findings) |
| VideoEffect.KeptFrame | EffekseerForYMM4/EffekseerVideoEffect/EffekseerVideoEffectProcessor.cs:137-148 | as written: the same path, calls and record, with the count kept through a load |
| VideoEffect.DurationAfter | EffekseerForYMM4/EffekseerVideoEffect/EffekseerVideoEffectProcessor.cs:141-147 | the duration changes only on a load with a length in `(0, int.MaxValue)` |
| VideoEffect.FailedRendererRetries | EffekseerForYMM4/EffekseerVideoEffect/EffekseerVideoEffectProcessor.cs:122-181 | a renderer that did not start stays in use: each update offers the file again and records nothing, keeps the duration, and reaches the item's frame unfolded |
| VideoEffect.RefusedFileRetried | EffekseerForYMM4/EffekseerVideoEffect/EffekseerVideoEffectProcessor.cs:132-154 | a refused file is offered again on every update, unlike the audio adapter |
| VideoEffect.LoadKeepsFrame | EffekseerForYMM4/EffekseerVideoEffect/EffekseerVideoEffectProcessor.cs:137-148 | as written, a new effect keeps `currentFrame`; the audio adapter and the corrected track restart at 0 |
| VideoEffect.KeptFrameDesyncs | EffekseerForYMM4/EffekseerVideoEffect/EffekseerVideoEffectProcessor.cs:137-148 | as written, after a load at frame `F > 0` the next forward update leaves the effect at `frame - F` while `currentFrame` is `frame` |
| VideoEffect.TakenKeepsStep | EffekseerForYMM4/EffekseerVideoEffect/EffekseerVideoEffectProcessor.cs:132-154 | corrected, following a file keeps the engine's counter equal to `currentFrame` |
| VideoEffect.UpdateKeepsStep | EffekseerForYMM4/EffekseerVideoEffect/EffekseerVideoEffectProcessor.cs:132-193 | corrected, after following the file and the frame the effect stands at the folded item frame |
| VideoEffect.EmptyPathQuiet | EffekseerForYMM4/EffekseerVideoEffect/EffekseerVideoEffectProcessor.cs:150-153 | an empty path is recorded without `Reset`; the audio adapter resets |
| VideoEffect.Tracked | EffekseerForYMM4/EffekseerVideoEffect/EffekseerVideoEffectProcessor.cs:157-193 | the loaded file is kept; the calls extend the old ones by at most a sync and end with the camera placement |
| VideoEffect.TrackedReachesFrame | EffekseerForYMM4/EffekseerVideoEffect/EffekseerVideoEffectProcessor.cs:157-193 | the engine reaches the folded frame and stays in step with `currentFrame` |
| VideoEffect.SyncsWithoutFile | EffekseerForYMM4/EffekseerVideoEffect/EffekseerVideoEffectProcessor.cs:157-181 | with no file loaded the engine is still stepped; the audio adapter does nothing |
| VideoEffect.VideoProcessor.constructor | EffekseerForYMM4/EffekseerVideoEffect/EffekseerVideoEffectProcessor.cs:15-59 | first call pending, no renderer, size 0×0, no path, frame 0, zero duration |
| VideoEffect.VideoProcessor.SetInput | EffekseerForYMM4/EffekseerVideoEffect/EffekseerVideoEffectProcessor.cs:65-69 | an input is set and nothing else changes |
| VideoEffect.VideoProcessor.ClearInput | EffekseerForYMM4/EffekseerVideoEffect/EffekseerVideoEffectProcessor.cs:74-78 | the input is cleared and nothing else changes |
| VideoEffect.VideoProcessor.Prepare | EffekseerForYMM4/EffekseerVideoEffect/EffekseerVideoEffectProcessor.cs:108-130 | the size is recorded; render targets are rebuilt on a change after the first call; the first call creates the renderer |
| VideoEffect.VideoProcessor.TakeFile | EffekseerForYMM4/EffekseerVideoEffect/EffekseerVideoEffectProcessor.cs:132-154 | the fields become `FileTaken` and the duration `DurationAfter`, with the files and length of this renderer, which are none and 0 if it did not start |
| VideoEffect.VideoProcessor.LoadFile | EffekseerForYMM4/EffekseerVideoEffect/EffekseerVideoEffectProcessor.cs:137-148 | the same for a new effect file; a load restarts `currentFrame` at 0 (corrected, see Findings) |
| VideoEffect.VideoProcessor.Follow | EffekseerForYMM4/EffekseerVideoEffect/EffekseerVideoEffectProcessor.cs:157-193 | the fields and calls become `Tracked`, folding by the length this renderer reports |
| VideoEffect.VideoProcessor.Update | EffekseerForYMM4/EffekseerVideoEffect/EffekseerVideoEffectProcessor.cs:85-193 | the whole state update, which never changes whether there is an input: no input changes nothing; a renderer that does not start stops the first update, and later ones go on with it; an overflowing duration stops it before the sync; otherwise the file is followed and then the frame |
| PullTest.PullFiveSeconds | EffekseerForYMM4.Tests/EffekseerAudioEffectTest/EffekseerAudioEffectTest.cs:12-59 | rate 44100; with the item looping, as it does by default, exactly `5 * 44100 * 2` samples are read, all silent when the renderer does not start; the saved file decodes to them, quantised, in stereo at 44100 Hz |
| PullTest.Pull | EffekseerForYMM4.Tests/EffekseerAudioEffectTest/EffekseerAudioEffectTest.cs:39-54 | with the item looping, the loop ends after exactly the input's stereo length, with one sample kept per sample read; when the renderer never starts, all of them are silence |
| PullTest.ReadOnce | EffekseerForYMM4.Tests/EffekseerAudioEffectTest/EffekseerAudioEffectTest.cs:45-52 | one read reports `count`, moves the input by it and keeps the buffer's first `count` samples; when the renderer had not started and does not start on this read, they are silence |

## Left out

- File and stream I/O. The decoder and the serialiser work on byte sequences, and `File.Exists` is the `None` case of `LoadSound`'s argument.
- The mixer's lock and the video renderer lock. Every method runs alone.
- The interop delegates and the sound callbacks of the native renderer. The renderer's own calls into the mixer are not modelled.
- Relative-path resolution in the `loadSound` delegate (EffekseerAudioEffectProcessor.cs lines 200-214). It only changes the path passed to `LoadSound`.
- Direct3D and Direct2D:
  - rendering, the projection and field of view;
  - render targets, beyond recording the size they were made for;
  - `Dispose` and the output image.
- Floating point:
  - `float` and `double` are exact reals;
  - the `(float)` casts of the delta and of the master volume are not rounded;
  - `Math.Pow`, `Math.Sqrt` and `ReadSingle` are parameters.
- The animated item values are supplied per call by the host (`Host`, `Request`):
  - camera position, volume, loop flag, file path, position and frame;
  - YMM4's animation evaluation is not part of this model.
- `ReadChars(4)` decoding of chunk ids. Ids are compared as bytes; non-ASCII ids, which UTF-8 decoding would read differently, are not modelled.
- Wav.Scan: a chunk size of -8 or less sends the source's walk back to or before the chunk (it seeks there, or loops). The model gives `None` instead.
- Mixer.SoundMixer.LoadSound: the `int` wrap-around of `nextId` after 2^31 loads is not modelled.
- Mixer.SoundMixer.constructor: requires a positive output rate. The adapter always passes the input's rate or 44100.
- Mixer.SoundMixer.Mix: requires the written window, `offset + 2 * ceil(count / 2)`, to fit the buffer. The source would throw past the end, and an odd `count` writes one sample past `offset + count`.
- AudioEffect.AudioProcessor.Read requires the input not to have been moved past its end. There `SilentSource.Read` reports a negative count, and `Array.Clear` (EffekseerAudioEffectProcessor.cs lines 82-85) then clears from `offset + readCount`, before the window. It throws only when that index is negative, and otherwise the read goes on. The model does not follow a negative count.
- AudioEffect.AudioProcessor: the input is the tests' `SilentSource`; other YMM4 streams are not modelled.
- AudioEffect.AudioProcessor.Read: `deltaFrames` (line 96) is computed but never used, so it is not modelled.
- AudioEffect.AudioProcessor.Seek keeps `currentFrame`, as the source does. `SeekThenForward` states the consequence.
- FrameSync.Engine.SetCameraLookAt records only the camera position. The target and the up vector are constants of each call site; the video camera target `(camX, camY, 0)` is not recorded.
- EffectPath.Lower: only ASCII `A`–`Z` are lowered. .NET's culture-aware `ToLower` also lowers other capitals (U+212A KELVIN SIGN becomes `k`), so an extension spelled with such a character is refused here and accepted by the source.
- VideoEffect.Ticks: `TimeSpan.FromSeconds` rounding below one tick is modelled as truncation.
- VideoEffect.Ticks: the type of YMM4's `FPS` is not part of this model. `tFrames / fps` is a real division here; an integer `FPS` would truncate the seconds.
- Voices.Voice: voices hold their sound by value. The mixer never changes a sound after loading it, so the reference sharing is not observable.
- Wav.ReadSamples: a `data` chunk that declares more bytes than the file holds makes a read throw (EffekseerSound.cs lines 327-349), so Load returns null; the model gives `None`.

## Findings

| source | as written | input that shows it | evidently intended | confidence | as-written member | corrected member |
|---|---|---|---|---|---|---|
| EffekseerForYMM4/EffekseerAudioEffect/EffekseerSound.cs:78-98 | `LoadSound` accepts any decoded WAV, including one whose `fmt ` chunk declares a negative sample rate. `Mix` then steps that voice's cursor backwards (lines 137-138, 240) and reads `Data[-1]` on the second frame (lines 221-228), which throws inside `Mix` | a mono 16-bit WAV of two samples with sample rate `-44100`, played at pitch 0 into a 44100 Hz mixer | a sound whose rate is negative is refused like an undecodable one, so every cursor stays inside its sound | not executed | Mixer.NegativeRateReadsBeforeStart | Mixer.SoundMixer.LoadSound |
| EffekseerForYMM4/EffekseerVideoEffect/EffekseerVideoEffectProcessor.cs:137-148 | a successful `LoadEffect` plays the new effect from frame 0 (EffekseerRenderer.cpp line 66), but the adapter keeps `currentFrame`. The next forward update steps the new effect by `frame - currentFrame` only, and it stays behind until a rewind | a non-looping item at frame 30 with its effect in step; the file changes to another effect that loads; the next update is at frame 31, so the effect is at frame 1 while `currentFrame` is 31 | the count restarts at 0 on a load, as the audio adapter does (EffekseerAudioEffectProcessor.cs lines 109-113), so the next update brings the new effect to the item's frame | not executed | VideoEffect.KeptFrameDesyncs | VideoEffect.FileTaken |
