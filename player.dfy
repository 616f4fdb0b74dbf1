/**
 * The client's `Player`: an optional playback worklet node whose port
 * receives sample buffers (`play`) and flush markers (`stop`). `init` is
 * asynchronous: it makes a context, awaits the worklet module, and only
 * then sets the node. The model splits it at that await: `Init` runs up to
 * it and `OnModuleLoaded` is the continuation.
 */
module Playback {
  import opened WebAudio
  import Pcm

  const PlaybackWorkletName: string := "audio-playback-worklet"

  class Player {
    var playbackNode: AudioWorkletNode?
    /** The context of an `init` suspended at its await, if any. */
    var loadingContext: AudioContext?

    constructor()
      ensures playbackNode == null && loadingContext == null
    {
      playbackNode := null;
      loadingContext := null;
    }

    /** `init(sampleRate)` up to the await: a new context, and no node yet. */
    method Init(sampleRate: int)
      modifies this
      ensures loadingContext != null && fresh(loadingContext)
      ensures loadingContext.sampleRate == sampleRate && !loadingContext.closed
      ensures playbackNode == old(playbackNode)
    {
      loadingContext := new AudioContext(sampleRate);
    }

    /**
     * The rest of `init` once `addModule` settles: when it resolved, a new
     * node on that context becomes `playbackNode`; when it rejected,
     * nothing changes.
     */
    method OnModuleLoaded(loaded: bool)
      requires loadingContext != null
      modifies this
      ensures loaded ==> fresh(playbackNode) && playbackNode.context == old(loadingContext)
      ensures loaded ==> playbackNode.processor == PlaybackWorkletName && playbackNode.port == []
      ensures !loaded ==> playbackNode == old(playbackNode)
      ensures loadingContext == null
    {
      if loaded {
        playbackNode := new AudioWorkletNode(loadingContext, PlaybackWorkletName);
      }
      loadingContext := null;
    }

    /** `play(buffer)`: the buffer goes to the node's port; without a node, nothing happens. */
    method Play(buffer: seq<Pcm.int16>)
      modifies playbackNode
      ensures playbackNode == old(playbackNode)
      ensures playbackNode != null ==> playbackNode.port == old(playbackNode.port) + [Samples(buffer)]
    {
      if playbackNode != null {
        playbackNode.PostMessage(Samples(buffer));
      }
    }

    /** `stop()`: a `null` flush marker goes to the node's port; without a node, nothing happens. */
    method Stop()
      modifies playbackNode
      ensures playbackNode == old(playbackNode)
      ensures playbackNode != null ==> playbackNode.port == old(playbackNode.port) + [Flush]
    {
      if playbackNode != null {
        playbackNode.PostMessage(Flush);
      }
    }
  }

  /**
   * The port receives exactly the calls made after the node was set, in
   * call order; calls made while `init` is still pending are lost.
   */
  method PlayStopOrder(p: Player, a: seq<Pcm.int16>, b: seq<Pcm.int16>)
    requires p.loadingContext != null && p.playbackNode == null
    modifies p, p.playbackNode
    ensures p.playbackNode != null && fresh(p.playbackNode)
    ensures p.playbackNode.port == [Samples(b), Flush]
  {
    p.Play(a);
    p.OnModuleLoaded(true);
    p.Play(b);
    p.Stop();
  }
}
