/**
 * The recording session of the audio processor: a flag that says whether
 * captured chunks are being kept, the chunks kept so far, and the buffer
 * last returned by the conversion service. The capture device's callback is
 * modelled as an ordinary method call, one per delivered chunk.
 */
module Recording {
  import opened Wrappers

  /**
   * `np.concatenate(chunks, axis=0)`: the chunks' samples in arrival order
   * (see `ConcatAt`), as many as all chunks hold together.
   */
  function Concat<T>(chunks: seq<seq<T>>): (r: seq<T>)
    ensures |r| == TotalLength(chunks)
  {
    if chunks == [] then [] else chunks[0] + Concat(chunks[1..])
  }

  /** Sum of the chunk lengths. */
  function TotalLength<T>(chunks: seq<seq<T>>): nat
  {
    if chunks == [] then 0 else |chunks[0]| + TotalLength(chunks[1..])
  }

  /** Appending a chunk appends its samples to the concatenation. */
  lemma {:induction false} ConcatAppend<T>(chunks: seq<seq<T>>, c: seq<T>)
    ensures Concat(chunks + [c]) == Concat(chunks) + c
  {
    if chunks != [] {
      assert (chunks + [c])[1..] == chunks[1..] + [c];
      ConcatAppend(chunks[1..], c);
    }
  }

  /** N chunks of C frames each concatenate to N * C frames. */
  lemma {:induction false} ConcatUniformLength<T>(chunks: seq<seq<T>>, c: nat)
    requires forall k :: 0 <= k < |chunks| ==> |chunks[k]| == c
    ensures |Concat(chunks)| == |chunks| * c
  {
    if chunks != [] {
      ConcatUniformLength(chunks[1..], c);
    }
  }

  /**
   * Arrival order: frame j of chunk k sits in the concatenation right after
   * all frames of the chunks that arrived before it.
   */
  lemma {:induction false} ConcatAt<T>(chunks: seq<seq<T>>, k: nat, j: nat)
    requires k < |chunks| && j < |chunks[k]|
    ensures TotalLength(chunks[..k]) + j < |Concat(chunks)|
    ensures Concat(chunks)[TotalLength(chunks[..k]) + j] == chunks[k][j]
  {
    if k == 0 {
      assert chunks[..0] == [];
    } else {
      assert chunks[..k][1..] == chunks[1..][..k - 1];
      ConcatAt(chunks[1..], k - 1, j);
    }
  }

  /** The default capture rate of the processor, in Hz. */
  const DefaultSampleRate: nat := 44100

  /** `AudioProcessor`: recording state and the last converted buffer. */
  class AudioProcessor {
    /** `sample_rate`: the capture rate, also used to play the original */
    const sampleRate: nat
    /** `is_recording` */
    var recording: bool
    /** `recorded_audio`: the chunks kept since the last start */
    var chunks: seq<seq<real>>
    /** `converted_audio` */
    var convertedAudio: Option<seq<real>>

    constructor ()
      ensures sampleRate == DefaultSampleRate
      ensures !recording && chunks == [] && convertedAudio == None
    {
      sampleRate := DefaultSampleRate;
      recording := false;
      chunks := [];
      convertedAudio := None;
    }

    /** `start_recording`: raises the flag and discards any earlier recording. */
    method Start()
      modifies this
      ensures recording && chunks == []
      ensures convertedAudio == old(convertedAudio)
    {
      recording := true;
      chunks := [];
    }

    /** The capture callback: keeps a copy of the chunk only while recording. */
    method OnChunk(indata: seq<real>)
      modifies this
      ensures recording == old(recording) && convertedAudio == old(convertedAudio)
      ensures chunks == if old(recording) then old(chunks) + [indata] else old(chunks)
    {
      if recording {
        chunks := chunks + [indata];
      }
    }

    /**
     * `stop_recording`: lowers the flag, keeps the chunks, and returns their
     * concatenation, or `None` when no chunk was kept.
     */
    method Stop() returns (r: Option<seq<real>>)
      modifies this
      ensures !recording
      ensures chunks == old(chunks) && convertedAudio == old(convertedAudio)
      ensures r.None? <==> chunks == []
      ensures r.Some? ==> r.value == Concat(chunks) && |r.value| == TotalLength(chunks)
    {
      recording := false;
      if chunks != [] {
        r := Some(Concat(chunks));
      } else {
        r := None;
      }
    }

    /** Records the buffer a successful conversion produced. */
    method SetConverted(audio: seq<real>)
      modifies this
      ensures convertedAudio == Some(audio)
      ensures recording == old(recording) && chunks == old(chunks)
    {
      convertedAudio := Some(audio);
    }
  }

  /**
   * One session as the capture device drives it on a fresh processor: a stop
   * before any start, a start, the chunks delivered while recording, a stop,
   * further chunks delivered after the stop, and a second stop. The first
   * stop finds nothing; the second and third return the same buffer, which is
   * absent exactly when nothing was delivered while recording and is
   * otherwise the in-order concatenation of the recorded chunks.
   */
  method RecordSession(during: seq<seq<real>>, late: seq<seq<real>>)
    returns (before: Option<seq<real>>, first: Option<seq<real>>, second: Option<seq<real>>)
    ensures before == None
    ensures first == second
    ensures first.None? <==> during == []
    ensures first.Some? ==> first.value == Concat(during) && |first.value| == TotalLength(during)
  {
    var p := new AudioProcessor();
    before := p.Stop();
    p.Start();
    for i := 0 to |during|
      invariant p.recording
      invariant p.chunks == during[..i]
    {
      assert during[..i + 1] == during[..i] + [during[i]];
      p.OnChunk(during[i]);
    }
    assert during[..|during|] == during;
    first := p.Stop();
    for i := 0 to |late|
      invariant !p.recording
      invariant p.chunks == during
    {
      p.OnChunk(late[i]);
    }
    second := p.Stop();
  }
}
