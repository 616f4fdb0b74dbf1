/**
 * The capture-side chunking rule shared by the recorder hook and the
 * application shell: captured bytes are appended to a growing buffer, and
 * when the buffer holds at least 4800 bytes (2400 samples, 100 ms at
 * 24 kHz) exactly one 4800-byte prefix is cut off and sent. The rule is a
 * single `if`, not a loop, so one call never sends more than one chunk.
 */
module Chunking {
  import opened Wrappers
  import Base64
  import Pcm

  type byte = Base64.byte

  const BufferSize: nat := 4800

  /** The buffer after one call and the chunk that call sends, if any. */
  datatype Step = Step(buffer: seq<byte>, chunk: Option<seq<byte>>)

  function Sent(s: Step): seq<byte>
  {
    if s.chunk.Some? then s.chunk.value else []
  }

  /** The check after appending: cut off one chunk when the buffer has reached the threshold. */
  function Take(buffer: seq<byte>): (r: Step)
    ensures r.chunk.Some? <==> |buffer| >= BufferSize
    ensures r.chunk.Some? ==> |r.chunk.value| == BufferSize
    ensures Sent(r) + r.buffer == buffer
  {
    if |buffer| >= BufferSize then Step(buffer[BufferSize..], Some(buffer[..BufferSize]))
    else Step(buffer, None)
  }

  /** One capture callback: append the new bytes, then take at most one chunk. */
  function Feed(buffer: seq<byte>, data: seq<byte>): (r: Step)
    ensures r.chunk.Some? <==> |buffer| + |data| >= BufferSize
    ensures Sent(r) + r.buffer == buffer + data
  {
    Take(buffer + data)
  }

  /** Concatenation of a list of byte runs, in order. */
  function Flatten(xs: seq<seq<byte>>): seq<byte>
  {
    if xs == [] then [] else Flatten(xs[..|xs| - 1]) + xs[|xs| - 1]
  }

  lemma {:induction false} FlattenAppend(xs: seq<seq<byte>>, x: seq<byte>)
    ensures Flatten(xs + [x]) == Flatten(xs) + x
  {
    assert (xs + [x])[..|xs|] == xs;
  }

  /** What a run of capture callbacks leaves behind: the buffer and the chunks sent, in order. */
  datatype Run = Run(buffer: seq<byte>, chunks: seq<seq<byte>>)

  function SentList(s: Step): seq<seq<byte>>
  {
    if s.chunk.Some? then [s.chunk.value] else []
  }

  lemma {:induction false} FlattenSent(xs: seq<seq<byte>>, s: Step)
    ensures Flatten(xs + SentList(s)) == Flatten(xs) + Sent(s)
  {
    if s.chunk.Some? {
      FlattenAppend(xs, s.chunk.value);
    } else {
      assert xs + SentList(s) == xs;
    }
  }

  /** The state after a sequence of capture callbacks, starting from `buffer`. */
  function FeedAll(buffer: seq<byte>, datas: seq<seq<byte>>): (r: Run)
    ensures |r.chunks| <= |datas|
  {
    if datas == [] then Run(buffer, [])
    else
      var p := FeedAll(buffer, datas[..|datas| - 1]);
      var s := Feed(p.buffer, datas[|datas| - 1]);
      Run(s.buffer, p.chunks + SentList(s))
  }

  /**
   * Conservation: the chunks sent so far, followed by what is still
   * buffered, are exactly the bytes fed in, in order.
   */
  lemma {:induction false} FeedAllConserves(buffer: seq<byte>, datas: seq<seq<byte>>)
    ensures Flatten(FeedAll(buffer, datas).chunks) + FeedAll(buffer, datas).buffer == buffer + Flatten(datas)
  {
    if datas != [] {
      var init, last := datas[..|datas| - 1], datas[|datas| - 1];
      FeedAllConserves(buffer, init);
      var p := FeedAll(buffer, init);
      var s := Feed(p.buffer, last);
      var r := FeedAll(buffer, datas);
      calc {
        Flatten(r.chunks) + r.buffer;
        { assert r == Run(s.buffer, p.chunks + SentList(s)); FlattenSent(p.chunks, s); }
        Flatten(p.chunks) + Sent(s) + s.buffer;
        { Regroup(Flatten(p.chunks), Sent(s), s.buffer, p.buffer, last, buffer, Flatten(init)); }
        buffer + (Flatten(init) + last);
        buffer + Flatten(datas);
      }
    }
  }

  lemma {:induction false} Regroup(fc: seq<byte>, sent: seq<byte>, rest: seq<byte>, held: seq<byte>, last: seq<byte>, start: seq<byte>, fed: seq<byte>)
    requires sent + rest == held + last && fc + held == start + fed
    ensures fc + sent + rest == start + (fed + last)
  {
    calc {
      fc + sent + rest;
      fc + (sent + rest);
      fc + (held + last);
      (fc + held) + last;
    }
  }

  /** Every chunk sent has exactly 4800 bytes. */
  lemma {:induction false} FeedAllChunkSize(buffer: seq<byte>, datas: seq<seq<byte>>)
    ensures forall i :: 0 <= i < |FeedAll(buffer, datas).chunks| ==> |FeedAll(buffer, datas).chunks[i]| == BufferSize
  {
    if datas != [] {
      FeedAllChunkSize(buffer, datas[..|datas| - 1]);
    }
  }

  /**
   * A call sends a chunk exactly when the buffer plus the new bytes reach
   * 4800, and then only one: what stays may itself still be 4800 bytes or more.
   */
  lemma {:induction false} OneChunkPerCall(buffer: seq<byte>, data: seq<byte>)
    ensures Feed(buffer, data).chunk.Some? <==> |buffer| + |data| >= BufferSize
    ensures |Feed(buffer, data).buffer| == if |buffer| + |data| >= BufferSize then |buffer| + |data| - BufferSize else |buffer| + |data|
  {
  }

  /** 9600 bytes in one call send one chunk (the first 4800 bytes) and keep the other 4800. */
  lemma {:induction false} DoubleChunkInOneCall(data: seq<byte>)
    requires |data| == 2 * BufferSize
    ensures Feed([], data) == Step(data[BufferSize..], Some(data[..BufferSize]))
    ensures |Feed([], data).buffer| == BufferSize
  {
    assert [] + data == data;
  }

  /**
   * While every callback brings at most 4800 bytes (the worklet posts 128
   * samples, 256 bytes, per render quantum), the buffer is back below
   * 4800 after every call.
   */
  lemma {:induction false} SmallCallsKeepBufferBelowThreshold(buffer: seq<byte>, data: seq<byte>)
    requires |buffer| < BufferSize && |data| <= BufferSize
    ensures |Feed(buffer, data).buffer| < BufferSize
  {
  }

  /** Forty-eight calls of 100 bytes: nothing is sent before the 48th call, which sends one chunk. */
  lemma {:induction false} HundredByteCalls(datas: seq<seq<byte>>, n: nat)
    requires n <= 48 && n <= |datas|
    requires forall i :: 0 <= i < |datas| ==> |datas[i]| == 100
    ensures n < 48 ==> FeedAll([], datas[..n]).chunks == [] && |FeedAll([], datas[..n]).buffer| == 100 * n
    ensures n == 48 ==> |FeedAll([], datas[..n]).chunks| == 1 && FeedAll([], datas[..n]).buffer == []
  {
    if n > 0 {
      HundredByteCalls(datas, n - 1);
      var prefix := datas[..n];
      assert prefix[..n - 1] == datas[..n - 1];
      assert |prefix[n - 1]| == 100;
      var p := FeedAll([], datas[..n - 1]);
      var s := Feed(p.buffer, prefix[n - 1]);
      assert FeedAll([], prefix) == Run(s.buffer, p.chunks + SentList(s));
    }
  }

  /** A chunk goes on the wire as 6400 base64 characters without padding, and decodes back to itself. */
  lemma {:induction false} ChunkEncoding(chunk: seq<byte>)
    requires |chunk| == BufferSize
    ensures |Base64.Encode(chunk)| == 6400
    ensures forall i :: 0 <= i < 6400 ==> Base64.Encode(chunk)[i] != '='
    ensures Base64.Decode(Base64.Encode(chunk)) == Some(chunk)
  {
    Base64.DecodeEncode(chunk);
  }
}
