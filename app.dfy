/**
 * The action guards of the voice changer's window: which of its buttons are
 * enabled, given whether a recording and a converted buffer exist. Widgets,
 * labels and colours are not modelled; each button is an enabled flag, and
 * each button handler a method. The background conversion is split into the
 * handler that hands the recording off and the completion that follows it.
 */
module App {
  import opened Wrappers
  import opened Pcm
  import opened Recording

  /** The rate the conversion service's PCM output is requested at. */
  const ConvertedSampleRate: nat := 44100

  /** `VoiceChangerApp` reduced to its state. */
  class VoiceChangerApp {
    const audio: AudioProcessor
    /** `current_recording` */
    var currentRecording: Option<seq<real>>
    var convertEnabled: bool
    var playOriginalEnabled: bool
    var playConvertedEnabled: bool
    var saveEnabled: bool

    /**
     * What the handlers keep true: Play original is enabled only for a
     * non-empty recording and never while recording; Play converted and Save
     * are enabled only once converted audio exists; converted audio can be
     * saved without wrap-around.
     */
    ghost predicate Valid()
      reads this, audio
    {
      (audio.recording ==> !playOriginalEnabled) &&
      (playOriginalEnabled ==> currentRecording.Some? && |currentRecording.value| > 0) &&
      (playConvertedEnabled ==> audio.convertedAudio.Some?) &&
      (saveEnabled ==> audio.convertedAudio.Some?) &&
      (audio.convertedAudio.Some? ==> AllNoWrap(audio.convertedAudio.value))
    }

    /** The window at start-up: nothing recorded, every action but Record disabled. */
    constructor ()
      ensures Valid() && fresh(audio)
      ensures !audio.recording && audio.chunks == [] && audio.convertedAudio == None
      ensures currentRecording == None
      ensures !convertEnabled && !playOriginalEnabled && !playConvertedEnabled && !saveEnabled
    {
      audio := new AudioProcessor();
      currentRecording := None;
      convertEnabled, playOriginalEnabled, playConvertedEnabled, saveEnabled := false, false, false, false;
    }

    /**
     * `toggle_recording`. While recording: stops, keeps the result as the
     * current recording, and enables Convert and Play original when that
     * result is present and non-empty. While idle: starts a new take and
     * disables Convert, both Play actions and Save.
     */
    method ToggleRecording()
      requires Valid()
      modifies this, audio
      ensures Valid()
      ensures audio.recording == !old(audio.recording)
      ensures audio.convertedAudio == old(audio.convertedAudio)
      ensures old(audio.recording) ==>
                && audio.chunks == old(audio.chunks)
                && (currentRecording.None? <==> audio.chunks == [])
                && (currentRecording.Some? ==> currentRecording.value == Concat(audio.chunks))
                && var produced := currentRecording.Some? && |currentRecording.value| > 0;
                && convertEnabled == (produced || old(convertEnabled))
                && playOriginalEnabled == (produced || old(playOriginalEnabled))
                && playConvertedEnabled == old(playConvertedEnabled)
                && saveEnabled == old(saveEnabled)
      ensures !old(audio.recording) ==>
                && audio.chunks == []
                && currentRecording == old(currentRecording)
                && !convertEnabled && !playOriginalEnabled && !playConvertedEnabled && !saveEnabled
    {
      if audio.recording {
        currentRecording := audio.Stop();
        if currentRecording.Some? && |currentRecording.value| > 0 {
          convertEnabled := true;
          playOriginalEnabled := true;
        }
      } else {
        audio.Start();
        convertEnabled, playOriginalEnabled, playConvertedEnabled, saveEnabled := false, false, false, false;
      }
    }

    /**
     * `convert_voice`: does nothing without a current recording; otherwise
     * disables Convert and hands the current recording to the conversion.
     */
    method ConvertVoice() returns (handoff: Option<seq<real>>)
      requires Valid()
      modifies this
      ensures Valid()
      ensures handoff == currentRecording == old(currentRecording)
      ensures convertEnabled == (old(convertEnabled) && handoff.None?)
      ensures playOriginalEnabled == old(playOriginalEnabled)
      ensures playConvertedEnabled == old(playConvertedEnabled) && saveEnabled == old(saveEnabled)
    {
      if currentRecording == None {
        return None;
      }
      convertEnabled := false;
      handoff := currentRecording;
    }

    /**
     * The end of the background conversion: `response` is the body of a
     * successful request, or `None` when the request failed. A body that
     * decodes becomes the converted audio and enables Convert, Play converted
     * and Save; any failure only re-enables Convert.
     */
    method ConversionFinished(response: Option<seq<Byte>>)
      requires Valid()
      modifies this, audio
      ensures Valid()
      ensures audio.recording == old(audio.recording) && audio.chunks == old(audio.chunks)
      ensures currentRecording == old(currentRecording)
      ensures convertEnabled && playOriginalEnabled == old(playOriginalEnabled)
      ensures var decoded := if response.Some? then DecodeResponse(response.value) else None;
              if decoded.Some? then
                audio.convertedAudio == decoded && playConvertedEnabled && saveEnabled
              else
                && audio.convertedAudio == old(audio.convertedAudio)
                && playConvertedEnabled == old(playConvertedEnabled)
                && saveEnabled == old(saveEnabled)
    {
      var decoded := if response.Some? then DecodeResponse(response.value) else None;
      if decoded.Some? {
        audio.SetConverted(decoded.value);
        convertEnabled, playConvertedEnabled, saveEnabled := true, true, true;
      } else {
        convertEnabled := true;
      }
    }

    /**
     * `play_original`: the current recording, played at the capture rate, or
     * nothing without one; whenever its button is enabled there is a
     * non-empty recording to play.
     */
    method PlayOriginal() returns (playing: Option<seq<real>>, rate: nat)
      requires Valid()
      ensures playing == currentRecording
      ensures rate == audio.sampleRate
      ensures playOriginalEnabled ==> playing.Some? && |playing.value| > 0
    {
      playing, rate := currentRecording, audio.sampleRate;
    }

    /**
     * `play_converted`: the converted audio, played at the service's rate, or
     * nothing without it; whenever its button is enabled there is converted
     * audio to play.
     */
    method PlayConverted() returns (playing: Option<seq<real>>, rate: nat)
      requires Valid()
      ensures playing == audio.convertedAudio
      ensures rate == ConvertedSampleRate
      ensures playConvertedEnabled ==> playing.Some?
    {
      playing, rate := audio.convertedAudio, ConvertedSampleRate;
    }

    /**
     * `save_converted`: nothing without converted audio; otherwise the
     * 16-bit sample bytes written to the file, two per converted sample.
     */
    method SaveConverted() returns (written: Option<seq<Byte>>)
      requires Valid()
      ensures written.None? <==> audio.convertedAudio.None?
      ensures written.Some? ==> written.value == WavPayload(audio.convertedAudio.value)
      ensures written.Some? ==> |written.value| == 2 * |audio.convertedAudio.value|
    {
      if audio.convertedAudio == None {
        return None;
      }
      written := Some(WavPayload(audio.convertedAudio.value));
    }

    /** `on_close`: a recording in progress is stopped and its result dropped. */
    method Close()
      requires Valid()
      modifies audio
      ensures Valid()
      ensures !audio.recording
      ensures audio.chunks == old(audio.chunks) && audio.convertedAudio == old(audio.convertedAudio)
    {
      if audio.recording {
        var _ := audio.Stop();
      }
    }
  }

  /**
   * A conversion that finishes after a new, empty take has been recorded
   * leaves Convert enabled with no current recording; the guard at the head
   * of `convert_voice` is what then makes Convert do nothing.
   */
  method StaleConversionEnablesConvert(take: seq<real>, body: seq<Byte>)
    returns (enabled: bool, recording: Option<seq<real>>, handoff: Option<seq<real>>)
    requires |take| > 0
    ensures enabled && recording == None && handoff == None
  {
    var app := new VoiceChangerApp();
    app.ToggleRecording();
    app.audio.OnChunk(take);
    app.ToggleRecording();
    var started := app.ConvertVoice();
    assert started.Some?;
    // a second take during which the device delivers nothing
    app.ToggleRecording();
    app.ToggleRecording();
    app.ConversionFinished(Some(body));
    enabled, recording := app.convertEnabled, app.currentRecording;
    handoff := app.ConvertVoice();
  }

  /**
   * The first take in a freshly opened window: afterwards Convert and Play
   * original are enabled exactly when the device delivered at least one
   * frame while recording.
   */
  method FirstTakeEnablesConvert(take: seq<seq<real>>)
    returns (convertEnabled: bool, playOriginalEnabled: bool)
    ensures convertEnabled == playOriginalEnabled == (TotalLength(take) > 0)
  {
    var app := new VoiceChangerApp();
    app.ToggleRecording();
    for i := 0 to |take|
      invariant app.Valid() && app.audio.recording
      invariant app.audio.chunks == take[..i]
      invariant !app.convertEnabled && !app.playOriginalEnabled
    {
      assert take[..i + 1] == take[..i] + [take[i]];
      app.audio.OnChunk(take[i]);
    }
    assert take[..|take|] == take;
    app.ToggleRecording();
    convertEnabled, playOriginalEnabled := app.convertEnabled, app.playOriginalEnabled;
  }
}
