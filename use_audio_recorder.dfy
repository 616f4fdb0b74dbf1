/**
 * The `useAudioRecorder` hook: it owns the capture buffer and a lazily
 * made `Recorder`, and turns every 4800 captured bytes into one base64
 * string handed to `onAudioRecorded`. The buffer is the variable the
 * recorder's callback closes over; `recorded` lists the strings handed to
 * `onAudioRecorded`, in order.
 */
module UseAudioRecorder {
  import opened Wrappers
  import Base64
  import Chunking
  import Recording
  import WebAudio
  import Pcm

  type byte = Base64.byte

  /**
   * The sent chunks followed by the buffer are the bytes fed so far; every
   * chunk has 4800 bytes, and each recorded string is its chunk's base64.
   */
  ghost predicate Accounted(chunks: seq<seq<byte>>, buffer: seq<byte>, fed: seq<byte>, recorded: seq<string>)
  {
    Chunking.Flatten(chunks) + buffer == fed
    && (forall i :: 0 <= i < |chunks| ==> |chunks[i]| == Chunking.BufferSize)
    && recorded == EncodeEach(chunks)
  }

  /** The base64 of each chunk, in order. */
  function EncodeEach(chunks: seq<seq<byte>>): (r: seq<string>)
    ensures |r| == |chunks|
  {
    seq(|chunks|, i requires 0 <= i < |chunks| => Base64.Encode(chunks[i]))
  }

  /** The strings reported for one capture callback: the base64 of the chunk cut off, if any. */
  function Reported(step: Chunking.Step): seq<string>
  {
    EncodeEach(Chunking.SentList(step))
  }

  /** One capture callback keeps the account. */
  lemma {:induction false} FeedKeepsAccount(chunks: seq<seq<byte>>, buffer: seq<byte>, fed: seq<byte>, recorded: seq<string>, data: seq<byte>)
    requires Accounted(chunks, buffer, fed, recorded)
    ensures var step := Chunking.Feed(buffer, data);
      Accounted(chunks + Chunking.SentList(step), step.buffer, fed + data, recorded + Reported(step))
  {
    var step := Chunking.Feed(buffer, data);
    var chunks' := chunks + Chunking.SentList(step);
    Chunking.FlattenSent(chunks, step);
    assert Chunking.Sent(step) + step.buffer == buffer + data;
    if step.chunk.Some? {
      assert chunks'[..|chunks|] == chunks;
      assert EncodeEach(chunks') == EncodeEach(chunks) + Reported(step);
    } else {
      assert chunks' == chunks;
    }
  }

  class AudioRecorderHook {
    var buffer: seq<byte>
    var recorded: seq<string>
    var recorder: Recording.Recorder?
    /** Every byte handed to `handleAudioData` so far. */
    ghost var fed: seq<byte>
    /** The chunks cut off so far, in order. */
    ghost var chunks: seq<seq<byte>>

    /**
     * The sent chunks followed by the buffer are the bytes fed so far; every
     * chunk has 4800 bytes, and each recorded string is its chunk's base64.
     */
    ghost predicate Valid()
      reads this
    {
      Accounted(chunks, buffer, fed, recorded)
    }

    constructor()
      ensures Valid()
      ensures buffer == [] && recorded == [] && recorder == null && fed == []
    {
      buffer := [];
      recorded := [];
      recorder := null;
      fed := [];
      chunks := [];
    }

    /** `appendToBuffer(newData)`. */
    method AppendToBuffer(newData: seq<byte>)
      modifies this
      ensures buffer == old(buffer) + newData
      ensures recorded == old(recorded) && recorder == old(recorder) && fed == old(fed) && chunks == old(chunks)
    {
      buffer := buffer + newData;
    }

    /**
     * `handleAudioData(data)`: append, then cut off and report at most one
     * 4800-byte chunk, exactly as the chunking rule says.
     */
    method HandleAudioData(data: seq<byte>)
      requires Valid()
      modifies this
      ensures Valid() && fed == old(fed) + data
      ensures var step := Chunking.Feed(old(buffer), data);
        buffer == step.buffer && recorded == old(recorded) + Reported(step)
      ensures recorder == old(recorder)
    {
      FeedKeepsAccount(chunks, buffer, fed, recorded, data);
      AppendToBuffer(data);
      if |buffer| >= Chunking.BufferSize {
        var toSend := buffer[..Chunking.BufferSize];
        buffer := buffer[Chunking.BufferSize..];
        SendChunk(toSend);
      }
      fed := fed + data;
    }

    /** `onAudioRecorded(btoa(String.fromCharCode(...toSend)))`, the report of one cut-off chunk. */
    method SendChunk(toSend: seq<byte>)
      modifies this
      ensures recorded == old(recorded) + EncodeEach([toSend]) && chunks == old(chunks) + [toSend]
      ensures buffer == old(buffer) && recorder == old(recorder) && fed == old(fed)
    {
      var base64 := Base64.Encode(toSend);
      recorded := recorded + [base64];
      chunks := chunks + [toSend];
    }

    /** A message from the capture worklet reaches `handleAudioData` through the recorder's callback. */
    method OnWorkletMessage(samples: seq<Pcm.int16>)
      requires Valid() && recorder != null && recorder.onDataAvailable == Recording.HookHandleAudioData
      modifies this
      ensures Valid() && fed == old(fed) + Recording.Forward(samples)
      ensures var step := Chunking.Feed(old(buffer), Recording.Forward(samples));
        buffer == step.buffer && recorded == old(recorded) + Reported(step)
      ensures recorder == old(recorder)
    {
      HandleAudioData(Recording.Forward(samples));
    }

    /**
     * `start()`: the recorder is made on first use and reused afterwards;
     * then the microphone stream is requested (null when `getUserMedia`
     * rejects, which ends `start`) and handed to the recorder.
     */
    method Start(stream: WebAudio.MediaStream?, failure: Recording.StartFailure)
      requires Valid()
      modifies this, if recorder != null then recorder.Held() else {}
      modifies if stream != null then set t | t in stream.tracks :: t else {}
      ensures Valid() && buffer == old(buffer) && recorded == old(recorded) && fed == old(fed)
      ensures recorder != null
      ensures old(recorder) != null ==> recorder == old(recorder)
      ensures old(recorder) == null ==> fresh(recorder) && recorder.onDataAvailable == Recording.HookHandleAudioData
      ensures old(recorder) == null && stream == null ==> recorder.Idle()
      ensures stream != null && failure == Recording.NoFailure && old(recorder) == null ==> recorder.Capturing(stream)
    {
      if recorder == null {
        recorder := new Recording.Recorder(Recording.HookHandleAudioData);
      }
      if stream != null {
        recorder.Start(stream, failure);
      }
    }

    /** `stop()`: the recorder's `stop` when there is a recorder; before any `start`, nothing. */
    method Stop() returns (ok: bool)
      modifies if recorder != null then recorder.Held() else {}
      ensures recorder == null ==> ok
      ensures recorder != null ==> recorder.mediaStream == null && (ok ==> recorder.Idle())
      ensures recorder != null && old(recorder.mediaStream) != null ==>
        forall t :: t in old(recorder.mediaStream).tracks ==> t.stopped
      ensures recorder != null && old(recorder.audioContext) != null ==> old(recorder.audioContext).closed
      ensures recorder != null ==> (ok <==> old(recorder.audioContext) == null || !old(recorder.audioContext.closed))
      ensures recorder != null && !ok ==> recorder.audioContext == old(recorder.audioContext)
      ensures recorder != null && old(recorder.Idle()) ==> ok && recorder.Idle()
    {
      ok := true;
      if recorder != null {
        ok := recorder.Stop();
      }
    }
  }
}
