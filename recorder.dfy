/**
 * The `Recorder` of the client: a resource lifecycle over four nullable
 * handles (audio context, media stream, source node, worklet node). `start`
 * builds the capture graph and calls `stop` when any step throws; `stop`
 * stops the stream's tracks, closes the context and drops the handles.
 * Both are asynchronous in the client; here each runs to completion.
 */
module Recording {
  import opened WebAudio
  import Pcm

  /** The capture worklet's registered name. */
  const WorkletName: string := "audio-processor-worklet"

  const SampleRate: int := 24000

  /** The two callbacks the client gives a recorder. */
  datatype DataSink = HookHandleAudioData | AppProcessAudioRecordingBuffer

  /** The step of `start` that throws, if any. Closing a previous context fails on its own when that context is already closed. */
  datatype StartFailure = NoFailure | ContextFails | AddModuleFails | SourceFails | NodeFails

  /**
   * The worklet's message handler: the posted `Int16Array` arrives with its
   * `.buffer`, the samples' little-endian bytes, which go to the callback unchanged.
   */
  function Forward(samples: seq<Pcm.int16>): (data: seq<Pcm.byte>)
    ensures |data| == 2 * |samples|
    ensures Pcm.FromBytes(data).Success? && Pcm.FromBytes(data).value == samples
  {
    Pcm.FromToBytes(samples);
    Pcm.ToBytes(samples)
  }

  class Recorder {
    const onDataAvailable: DataSink
    var audioContext: AudioContext?
    var mediaStream: MediaStream?
    var mediaStreamSource: MediaStreamSourceNode?
    var workletNode: AudioWorkletNode?

    /** Nothing held. */
    predicate Idle()
      reads this
    {
      audioContext == null && mediaStream == null && mediaStreamSource == null && workletNode == null
    }

    /** Capturing `stream` through an open 24 kHz context: the full graph is held. */
    predicate Capturing(stream: MediaStream)
      reads this, audioContext
    {
      audioContext != null && !audioContext.closed && audioContext.sampleRate == SampleRate
      && mediaStream == stream
      && mediaStreamSource != null && mediaStreamSource.context == audioContext && mediaStreamSource.stream == stream
      && workletNode != null && workletNode.context == audioContext && workletNode.processor == WorkletName
    }

    /** The objects `stop` may change: this recorder, its context and the tracks of its stream. */
    function Held(): set<object>
      reads this
    {
      {this} + (if audioContext != null then {audioContext} else {})
      + (if mediaStream != null then set t | t in mediaStream.tracks :: t else {})
    }

    constructor(onDataAvailable: DataSink)
      ensures this.onDataAvailable == onDataAvailable
      ensures Idle()
    {
      this.onDataAvailable := onDataAvailable;
      audioContext := null;
      mediaStream := null;
      mediaStreamSource := null;
      workletNode := null;
    }

    /**
     * `stop()`. The tracks are stopped and the stream dropped first; then the
     * context is closed and dropped. When that close rejects (the context
     * was already closed) the method ends there, keeping the context and
     * both nodes; `ok` is false exactly then. From `Idle` it does nothing.
     */
    method Stop() returns (ok: bool)
      modifies Held()
      ensures old(mediaStream) != null ==> forall t :: t in old(mediaStream).tracks ==> t.stopped
      ensures mediaStream == null
      ensures old(audioContext) != null ==> old(audioContext).closed
      ensures ok <==> old(audioContext) == null || !old(audioContext.closed)
      ensures ok ==> Idle()
      ensures !ok ==> audioContext == old(audioContext) && mediaStreamSource == old(mediaStreamSource) && workletNode == old(workletNode)
      ensures old(Idle()) ==> ok && Idle()
    {
      if mediaStream != null {
        assert forall t :: t in mediaStream.tracks ==> t in Held();
        mediaStream.StopAllTracks();
        mediaStream := null;
      }
      if audioContext != null {
        ok := audioContext.Close();
        if !ok {
          return;
        }
        audioContext := null;
      }
      ok := true;
      mediaStreamSource := null;
      workletNode := null;
    }

    /**
     * `start(stream)`. A held context is closed first; then a new 24 kHz
     * context is made, the worklet module loaded, the stream attached to a
     * source node feeding a worklet node. A step that throws, including the
     * close of an already closed context, leads to `stop`.
     */
    method Start(stream: MediaStream, failure: StartFailure)
      modifies Held(), set t | t in stream.tracks :: t
      ensures var closeOk := old(audioContext) == null || !old(audioContext.closed);
        closeOk && failure == NoFailure ==> Capturing(stream) && fresh(audioContext) && fresh(mediaStreamSource) && fresh(workletNode)
      ensures var closeOk := old(audioContext) == null || !old(audioContext.closed);
        !(closeOk && failure == NoFailure) ==> mediaStream == null && (audioContext == null || audioContext.closed)
      ensures old(audioContext) != null ==> old(audioContext).closed
      ensures old(audioContext) == null && failure != NoFailure ==> Idle()
      ensures var closeOk := old(audioContext) == null || !old(audioContext.closed);
        closeOk && failure in {AddModuleFails, SourceFails, NodeFails} ==> Idle()
      ensures var closeOk := old(audioContext) == null || !old(audioContext.closed);
        closeOk && failure in {SourceFails, NodeFails} ==> forall t :: t in stream.tracks ==> t.stopped
      ensures old(audioContext) != null && old(audioContext.closed) ==> audioContext == old(audioContext) && mediaStream == null
      ensures old(audioContext) != null && failure == ContextFails ==> audioContext == old(audioContext) && mediaStream == null
      ensures var closeOk := old(audioContext) == null || !old(audioContext.closed);
        closeOk && failure == NoFailure && old(mediaStream) != null ==>
        forall t :: t in old(mediaStream).tracks && t !in stream.tracks ==> t.stopped == old(t.stopped)
    {
      if audioContext != null {
        var closed := audioContext.Close();
        if !closed {
          var _ := Stop();
          return;
        }
      }
      if failure == ContextFails {
        var _ := Stop();
        return;
      }
      var context := new AudioContext(SampleRate);
      audioContext := context;
      if failure == AddModuleFails {
        var _ := Stop();
        return;
      }
      mediaStream := stream;
      if failure == SourceFails {
        var _ := Stop();
        return;
      }
      mediaStreamSource := new MediaStreamSourceNode(context, stream);
      if failure == NodeFails {
        var _ := Stop();
        return;
      }
      workletNode := new AudioWorkletNode(context, WorkletName);
    }
  }

  /**
   * After a restart in which a previous context was closed and the new
   * context could not be made, the recorder keeps the closed context; every
   * later `start` then fails at the first close, so capture never resumes.
   */
  method StuckAfterFailedRestart(r: Recorder, s1: MediaStream, s2: MediaStream, failure: StartFailure)
    requires r.audioContext != null && !r.audioContext.closed
    modifies r.Held(), set t | t in s1.tracks :: t, set t | t in s2.tracks :: t
    ensures r.audioContext == old(r.audioContext) && r.audioContext.closed
    ensures r.mediaStream == null && !r.Capturing(s2)
  {
    r.Start(s1, ContextFails);
    r.Start(s2, failure);
  }
}
