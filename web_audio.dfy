/**
 * The browser media objects the client drives, as abstract handles: only
 * the state the client's code depends on is kept (whether a context is
 * closed, whether a track is stopped, the messages posted to a port).
 */
module WebAudio {
  import Pcm

  /** A capture track of a `MediaStream`. */
  class MediaStreamTrack {
    var stopped: bool

    constructor()
      ensures !stopped
    {
      stopped := false;
    }

    /** `track.stop()`: stopping a stopped track is allowed and does nothing more. */
    method Stop()
      modifies this
      ensures stopped
    {
      stopped := true;
    }
  }

  /** A `MediaStream` as `getUserMedia` resolves it: a fixed list of tracks. */
  class MediaStream {
    const tracks: seq<MediaStreamTrack>

    constructor(tracks: seq<MediaStreamTrack>)
      ensures this.tracks == tracks
    {
      this.tracks := tracks;
    }

    /** `getTracks().forEach(track => track.stop())`. */
    method StopAllTracks()
      modifies tracks
      ensures forall t :: t in tracks ==> t.stopped
    {
      var i := 0;
      while i < |tracks|
        invariant 0 <= i <= |tracks|
        invariant forall j :: 0 <= j < i ==> tracks[j].stopped
      {
        tracks[i].Stop();
        i := i + 1;
      }
    }
  }

  /**
   * An `AudioContext`. Closing it succeeds once; `close()` on a context that
   * is already closed returns a promise rejected with InvalidStateError
   * (Web Audio API, the `close()` method of AudioContext).
   */
  class AudioContext {
    const sampleRate: int
    var closed: bool

    constructor(sampleRate: int)
      ensures this.sampleRate == sampleRate && !closed
    {
      this.sampleRate := sampleRate;
      closed := false;
    }

    method Close() returns (ok: bool)
      modifies this
      ensures ok == !old(closed)
      ensures closed
    {
      ok := !closed;
      closed := true;
    }
  }

  /** `createMediaStreamSource(stream)`: a source node of a context reading a stream. */
  class MediaStreamSourceNode {
    const context: AudioContext
    const stream: MediaStream

    constructor(context: AudioContext, stream: MediaStream)
      ensures this.context == context && this.stream == stream
    {
      this.context := context;
      this.stream := stream;
    }
  }

  /** A message on the playback worklet's port: a buffer of samples, or `null` (flush). */
  datatype PortMessage = Samples(samples: seq<Pcm.int16>) | Flush

  /** An `AudioWorkletNode` of a context, running the named processor; `port` holds what was posted to it, in order. */
  class AudioWorkletNode {
    const context: AudioContext
    const processor: string
    var port: seq<PortMessage>

    constructor(context: AudioContext, processor: string)
      ensures this.context == context && this.processor == processor && port == []
    {
      this.context := context;
      this.processor := processor;
      port := [];
    }

    /** `port.postMessage(m)`. */
    method PostMessage(m: PortMessage)
      modifies this
      ensures port == old(port) + [m]
    {
      port := port + [m];
    }
  }
}
