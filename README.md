# Voice Changer Pro — a Dafny model of its recording and PCM core

Voice Changer Pro records the microphone, sends the take to a speech-to-speech
service, and plays or saves the converted audio. This project models the parts
of `src/main.py` that are logic rather than widgets, devices or HTTP:

- **Recording session** (`Recording.AudioProcessor`): the `is_recording` flag and
  the `recorded_audio` chunk list. `Start` raises the flag and discards earlier
  chunks, the device callback (`OnChunk`, an ordinary method here) keeps a copy of
  each chunk only while the flag is up, and `Stop` lowers the flag and returns the
  chunks concatenated in arrival order, or `None` when no chunk was kept.
  Samples are mono and modelled as reals.
- **16-bit PCM framing and scaling** (`Pcm`): samples are scaled by 32767 and
  truncated toward zero to `int16`, each `int16` is written as two little-endian
  two's-complement bytes, a response payload is read back two bytes at a time, and
  each sample is divided by 32767. Floating-point values are exact reals.
- **Action guards** (`App.VoiceChangerApp`): which of Convert, Play original,
  Play converted and Save are enabled, modelled as four flags, and what each
  button handler does when its guard fails.

Notes on behaviour the proofs bring out:

- `astype(np.int16)` truncates toward zero; it does not round (`Pcm.Trunc`).
- `tobytes` and `np.frombuffer(..., dtype=np.int16)` use the host's native byte
  order. The model fixes it as little-endian, which is what both do on a
  little-endian host; on a big-endian host `wave` would swap the uploaded bytes
  while `frombuffer` would not swap the received ones.
- The comment at `src/main.py:133` describes the decoded range as [-1, 1]. That
  holds for every `int16` except -32768, which decodes to -32768/32767, just below
  -1 (`Pcm.DequantizeRange`). Quantization is therefore defined on exactly the
  samples whose scaled value truncates into the `int16` range (`Pcm.NoWrap`), a
  range that contains [-1, 1] and every decoded sample, so that saved converted
  audio reproduces the service's bytes exactly (`Pcm.SaveReproducesResponse`).
- A payload of odd length makes `np.frombuffer` raise; the exception reaches the
  conversion's error handler. The model returns `None` for it
  (`Pcm.FromBuffer`) and treats it as a failed conversion.
- Convert is not protected by an invariant the way the other actions are: a
  conversion that completes after a new, empty take re-enables Convert while
  there is no current recording (`App.StaleConversionEnablesConvert`). The
  `None` check at the head of `convert_voice` is what keeps that click harmless.
  Play converted and Save, by contrast, are enabled only once converted audio
  exists (`App.VoiceChangerApp.Valid`).

Files: `wrappers.dfy` (the `Option` type), `pcm.dfy`, `recording.dfy`, `app.dfy`.

## Model

| member | source | states |
|---|---|---|
| `Pcm.EncodeSample` | src/main.py:94 | one `int16` becomes two bytes whose 16-bit pattern is its two's-complement form; the sign is the top bit of the high byte |
| `Pcm.DecodeSample` | src/main.py:131 | two bytes read as a little-endian `int16`: congruent to lo + 256·hi modulo 65536, negative exactly when the high byte's top bit is set |
| `Pcm.DecodeEncodeSample` | src/main.py:131 | decoding a sample's two bytes gives the sample back |
| `Pcm.EncodeDecodeSample` | src/main.py:94 | every byte pair is the encoding of the sample it decodes to |
| `Pcm.ToBytes` | src/main.py:94 | `tobytes` on `int16` samples: 2 bytes per sample, sample i at bytes 2i and 2i+1 |
| `Pcm.DecodePairs` | src/main.py:131 | an even-length payload of length 2n yields n samples, sample i read from bytes 2i and 2i+1 |
| `Pcm.FromBuffer` | src/main.py:131 | `frombuffer` rejects an odd-length payload and otherwise yields half as many samples as bytes |
| `Pcm.FrameRoundTrip` | src/main.py:131 | reading back what `tobytes` wrote yields exactly the original samples, for every sequence of `int16`s |
| `Pcm.BytesRoundTrip` | src/main.py:131 | re-serialising a decoded even-length payload reproduces it byte for byte |
| `Pcm.Trunc` | src/main.py:86 | the float-to-integer cast truncates toward zero: the result is the integer part, within one step toward zero |
| `Pcm.Quantize` | src/main.py:86 | `(x * 32767).astype(int16)` lies within one step of 32767·x toward zero, and in [-32767, 32767] when x is in [-1, 1] |
| `Pcm.UnitRangeNoWrap` | src/main.py:86 | every sample in [-1, 1] is converted without wrap-around |
| `Pcm.Dequantize` | src/main.py:134 | a decoded sample times 32767 is the `int16` it came from |
| `Pcm.DequantizeRange` | src/main.py:133-134 | s/32767 lies in [-1, 1] exactly when s is not -32768, and -32768 maps below -1 |
| `Pcm.QuantizeRoundTrip` | src/main.py:86 | quantizing and dequantizing a sample changes it by less than 1/32767 |
| `Pcm.DequantizeRoundTrip` | src/main.py:155 | a decoded sample is in the quantizer's domain and quantizes back to its `int16` |
| `Pcm.ToPcm16` | src/main.py:155 | the 16-bit buffer has one quantized sample per input sample, in order |
| `Pcm.FromPcm16` | src/main.py:134 | the decoded buffer has one sample per `int16`, each 32767 times smaller, all savable without wrap-around |
| `Pcm.WavPayload` | src/main.py:83-97 | the sample bytes of the uploaded WAV and of the saved WAV are 2 × the sample count, and reading them back recovers the 16-bit samples written |
| `Pcm.DecodeResponse` | src/main.py:131-134 | a response decodes exactly when its length is even, to half as many samples, all savable, sample i being the little-endian `int16` at bytes 2i and 2i+1 divided by 32767 |
| `Pcm.UploadRoundTrip` | src/main.py:86-94 | decoding the payload of an encoded buffer gives the same number of samples, each within 1/32767 of the original |
| `Pcm.SaveReproducesResponse` | src/main.py:152-156 | saving a decoded conversion response writes exactly the bytes the service returned |
| `Recording.ConcatAppend` | src/main.py:62 | appending a chunk appends its samples to the concatenation |
| `Recording.Concat` | src/main.py:80 | `np.concatenate` of the chunk list is as long as all chunks together; `ConcatAt` places each chunk's frames in arrival order |
| `Recording.ConcatUniformLength` | src/main.py:79-80 | N chunks of C frames concatenate to N·C frames |
| `Recording.ConcatAt` | src/main.py:80 | frame j of chunk k sits right after all frames of the earlier chunks: arrival order is kept |
| `Recording.AudioProcessor.constructor` | src/main.py:47-53 | a new processor captures at 44100 Hz, is not recording, holds no chunks and no converted audio |
| `Recording.AudioProcessor.Start` | src/main.py:55-58 | the flag is raised and the chunk list emptied, discarding any earlier recording |
| `Recording.AudioProcessor.OnChunk` | src/main.py:60-62 | a chunk is appended while recording; otherwise nothing changes |
| `Recording.AudioProcessor.Stop` | src/main.py:72-81 | the flag is lowered, the chunks are kept, and the result is `None` exactly when no chunk was kept, else their in-order concatenation |
| `Recording.AudioProcessor.SetConverted` | src/main.py:428 | the converted buffer is replaced; the recording state is untouched |
| `Recording.RecordSession` | src/main.py:55-81 | a stop before any start returns `None`; chunks after a stop are dropped and a second stop returns the same buffer; the buffer is absent exactly when nothing arrived |
| `App.VoiceChangerApp.constructor` | src/main.py:300-366 | at start-up every action but Record is disabled and nothing is recorded |
| `App.VoiceChangerApp.ToggleRecording` | src/main.py:386-411 | stopping keeps the result and enables Convert and Play original only for a present, non-empty result; starting disables Convert, both Play actions and Save |
| `App.VoiceChangerApp.ConvertVoice` | src/main.py:413-420 | without a recording nothing changes; otherwise Convert is disabled and the recording handed to the conversion |
| `App.VoiceChangerApp.ConversionFinished` | src/main.py:424-451 | a decodable response becomes the converted audio and enables Convert, Play converted and Save; a failure only re-enables Convert |
| `App.VoiceChangerApp.PlayOriginal` | src/main.py:454-464 | plays the current recording at the capture rate, or nothing without one; an enabled Play original always has a non-empty recording to play |
| `App.VoiceChangerApp.PlayConverted` | src/main.py:466-476 | plays the converted audio at 44100 Hz, or nothing without it; an enabled Play converted always has converted audio to play |
| `App.VoiceChangerApp.SaveConverted` | src/main.py:478-495 | nothing is written without converted audio; otherwise its 16-bit sample bytes, two per sample |
| `App.VoiceChangerApp.Close` | src/main.py:498-503 | a recording in progress is stopped; nothing else changes |
| `App.StaleConversionEnablesConvert` | src/main.py:413-445 | a conversion finishing after an empty new take leaves Convert enabled with no recording, and Convert then does nothing |
| `App.FirstTakeEnablesConvert` | src/main.py:386-399 | after the first take in a fresh window, Convert and Play original are enabled exactly when some frame was captured |

## Left out

- Widgets, layout, status texts and colours of the window (`setup_ui` and the `configure` calls): user interface; only the enabled state of the four guarded buttons is kept.
- App.VoiceChangerApp.ToggleRecording: does not model a failed open of the input stream. `start_recording` raises the flag and empties the list before opening the stream, so when the open raises, `toggle_recording` never disables the buttons and Play original can stay enabled while recording, and then after a stop that returns `None`. `App.VoiceChangerApp.Valid` holds only because the model assumes the open succeeds.
- The input stream, playback and `sd.stop` (`sd.InputStream`, `sd.play`, `sd.wait`): device I/O. The callback is an ordinary method; playing returns the buffer that would be played.
- The HTTP request, headers, multipart body, status check and error-message parsing of `convert_with_elevenlabs`: a network client. A completed request is a parameter (`Some(body)`, or `None` for any failure).
- The WAV header written by `wave` and `scipy.io.wavfile`: foreign libraries. Only the sample bytes are modelled.
- The background threads of conversion and playback and the race between the capture thread and `stop_recording`: concurrency. Conversion is split into a start and a completion method that the caller invokes in any order.
- float32 rounding: samples and scaling are exact reals.
- Pcm.Quantize: does not model numpy's conversion of samples outside the `int16` range, whose result the library leaves platform-dependent; such samples are outside its domain.
- The file name, timestamp and Documents-folder choice of `save_converted`: they depend on the clock and file system.
- Voice and model selection (`on_voice_change`, `on_model_change`): dictionary lookups feeding the network request only.
- Duration display and the sample-rate settings: only feed status texts and the device.
- Pitch-shift, formant and ring-modulation presets in `src/config.py`: no shown code implements them.
- `setup_ffmpeg.py`: an installer script made entirely of downloads and file copying.
