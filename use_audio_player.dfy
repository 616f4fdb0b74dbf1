/**
 * The `useAudioPlayer` hook: a reference to the current `Player`, replaced
 * by `reset`, and a `play` that decodes a base64 audio delta into 16-bit
 * samples before handing them to the player.
 */
module UseAudioPlayer {
  import opened Wrappers
  import opened Json
  import Pcm
  import Base64
  import Playback
  import WebAudio

  const SampleRate: int := 24000

  class AudioPlayerHook {
    var player: Playback.Player?

    constructor()
      ensures player == null
    {
      player := null;
    }

    /** The node `play` and `stop` post to, when there is one. */
    function Target(): set<object>
      reads this, player
    {
      if player != null && player.playbackNode != null then {player.playbackNode} else {}
    }

    /** `reset()`: a fresh player whose `init(24000)` has started; it has no node until the module loads. */
    method Reset()
      modifies this
      ensures player != null && fresh(player)
      ensures player.playbackNode == null
      ensures player.loadingContext != null && player.loadingContext.sampleRate == SampleRate
    {
      var p := new Playback.Player();
      player := p;
      p.Init(SampleRate);
    }

    /**
     * `play(base64Audio)`: the decode throws (`err`) on a string `atob`
     * rejects or on an odd byte count, whether or not there is a player;
     * otherwise the samples go to the player's node, when there is one.
     */
    method Play(base64Audio: string) returns (err: Option<JsError>)
      modifies Target()
      ensures err.None? <==> Pcm.DecodeDelta(base64Audio).Success?
      ensures err.Some? ==> err.value == Pcm.DecodeDelta(base64Audio).error
      ensures Target() != {} && err.None? ==>
        player.playbackNode.port == old(player.playbackNode.port) + [WebAudio.Samples(Pcm.DecodeDelta(base64Audio).value)]
      ensures Target() != {} && err.Some? ==> player.playbackNode.port == old(player.playbackNode.port)
    {
      match Pcm.DecodeDelta(base64Audio)
      case Failure(e) =>
        return Some(e);
      case Success(pcmData) =>
        if player != null {
          player.Play(pcmData);
        }
        return None;
    }

    /** `stop()`: a flush marker to the player's node, when there is one. */
    method Stop()
      modifies Target()
      ensures Target() != {} ==> player.playbackNode.port == old(player.playbackNode.port) + [WebAudio.Flush]
    {
      if player != null {
        player.Stop();
      }
    }
  }

  /**
   * What capture sends, played back: samples laid out as little-endian
   * bytes and base64-encoded reach the player's port unchanged.
   */
  method PlayCapturedAudio(h: AudioPlayerHook, samples: seq<Pcm.int16>) returns (err: Option<JsError>)
    requires h.Target() != {}
    modifies h.Target()
    ensures err.None?
    ensures h.player.playbackNode.port == old(h.player.playbackNode.port) + [WebAudio.Samples(samples)]
  {
    Pcm.CaptureToPlayback(samples);
    err := h.Play(Base64.Encode(Pcm.ToBytes(samples)));
  }
}
