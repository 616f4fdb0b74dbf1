/**
 * The capture worklet: on every render quantum it converts the first
 * channel of its first input from float samples to 16-bit PCM and posts
 * the result to the main thread.
 */
module AudioProcessorWorklet {
  import opened Pcm

  /** The per-sample conversion applied to a whole channel. */
  function Converted(xs: seq<real>): (r: seq<int16>)
    ensures |r| == |xs|
    ensures forall i :: 0 <= i < |xs| ==> r[i] == ToInt16(xs[i])
  {
    seq(|xs|, i requires 0 <= i < |xs| => ToInt16(xs[i]))
  }

  /** A channel that is sorted by level stays sorted after conversion. */
  lemma {:induction false} ConvertedMonotone(xs: seq<real>, i: nat, j: nat)
    requires i <= j < |xs| && xs[i] <= xs[j]
    ensures Converted(xs)[i] <= Converted(xs)[j]
  {
    ToInt16Monotone(xs[i], xs[j]);
  }

  /** A channel within [-1, 1] converts without clamping, never to -32768. */
  lemma {:induction false} ConvertedNominal(xs: seq<real>)
    requires forall i :: 0 <= i < |xs| ==> -1.0 <= xs[i] <= 1.0
    ensures forall i :: 0 <= i < |xs| ==> Converted(xs)[i] == (xs[i] * 32767.0).Floor && -32767 <= Converted(xs)[i]
  {
    forall i | 0 <= i < |xs|
      ensures Converted(xs)[i] == (xs[i] * 32767.0).Floor && -32767 <= Converted(xs)[i]
    {
      ToInt16InNominalRange(xs[i]);
    }
  }

  /** The `PCMAudioProcessor`; `posted` is what went to `this.port.postMessage`, in order. */
  class PcmAudioProcessor {
    var posted: seq<seq<int16>>

    constructor()
      ensures posted == []
    {
      posted := [];
    }

    /** `float32ToInt16`: a new array of the same length holding each converted sample. */
    method Float32ToInt16(samples: array<real>) returns (r: array<int16>)
      ensures fresh(r)
      ensures r.Length == samples.Length
      ensures r[..] == Converted(samples[..])
    {
      r := new int16[samples.Length];
      var i := 0;
      while i < samples.Length
        invariant 0 <= i <= samples.Length
        invariant forall j :: 0 <= j < i ==> r[j] == ToInt16(samples[j])
      {
        r[i] := Max(MinInt16, Min(MaxInt16, (samples[i] * MaxInt16 as real).Floor));
        i := i + 1;
      }
    }

    /**
     * `process(inputs, outputs, parameters)`: one message, the conversion of
     * channel 0 of input 0, when that input has a channel; nothing otherwise.
     * The processor always asks to be kept alive. The node has one input, so
     * `inputs` is never empty.
     */
    method Process(inputs: seq<seq<array<real>>>) returns (keepAlive: bool)
      requires |inputs| > 0
      modifies this
      ensures keepAlive
      ensures |inputs[0]| > 0 ==> posted == old(posted) + [Converted(inputs[0][0][..])]
      ensures |inputs[0]| == 0 ==> posted == old(posted)
    {
      var input := inputs[0];
      if |input| > 0 {
        var int16Buffer := Float32ToInt16(input[0]);
        posted := posted + [int16Buffer[..]];
      }
      return true;
    }
  }
}
