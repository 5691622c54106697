/** The render loop as it is evidently meant to work: every write goes into
    the processor's current buffer, so the samples that follow a post land at
    the start of the fresh buffer instead of in the buffer just posted.

    Next to it, the discrepancy in the loop as written: there the `DataView`
    stays bound to the buffer the call started with, and the samples written
    after a post in the same call never reach any frame. */
module AudioProcessorRebound {
  import opened Pcm
  import opened AudioProcessor

  /** The byte stream a sequence of frames makes when sent one after another. */
  function Flatten(frames: seq<Frame>): seq<Byte>
  {
    if |frames| == 0 then [] else frames[0] + Flatten(frames[1..])
  }

  /** A stream of zero frames is all zero bytes. */
  lemma {:induction false} FlattenZeros(frames: seq<Frame>)
    requires forall j :: 0 <= j < |frames| ==> frames[j] == Zeros(BufferSize)
    ensures forall i :: 0 <= i < |Flatten(frames)| ==> Flatten(frames)[i] == 0
    decreases |frames|
  {
    if |frames| > 0 {
      FlattenZeros(frames[1..]);
    }
  }

  /** The variables of the intended render loop: the current buffer, the
      offset into it, and the frames posted so far. */
  datatype Filled = Filled(buffer: seq<Byte>, offset: int, frames: seq<Frame>)

  function LoopRebound(buf: seq<Byte>, offset: int, samples: seq<Sample>): (r: Filled)
    requires |buf| == BufferSize && 0 <= offset <= BufferSize && offset % 2 == 0
    ensures |r.buffer| == BufferSize
    ensures 0 <= r.offset <= BufferSize && r.offset % 2 == 0
    ensures offset + 2 * |samples| == |r.frames| * BufferSize + r.offset
    ensures |samples| > 0 ==> 0 < r.offset
    ensures forall j :: 0 <= j < |r.frames| ==> |r.frames[j]| == BufferSize
    decreases |samples|
  {
    if |samples| == 0 then Filled(buf, offset, [])
    else if offset >= BufferSize then
      var rest := LoopRebound(SetInt16LE(Zeros(BufferSize), 0, Quantise(samples[0])), 2, samples[1..]);
      Filled(rest.buffer, rest.offset, [buf] + rest.frames)
    else
      LoopRebound(SetInt16LE(buf, offset, Quantise(samples[0])), offset + 2, samples[1..])
  }

  /** The intended render call. It posts the same number of frames as the
      call as written and leaves the same offset. */
  function ProcessRebound(p: Processor, samples: seq<Sample>): (t: Rendered)
    requires Valid(p)
    ensures Valid(t.state) && t.keepAlive && t.state.listening == p.listening
    ensures !p.listening ==> t.state == p && t.frames == []
    ensures p.listening ==> p.offset + 2 * |samples| == |t.frames| * BufferSize + t.state.offset
    ensures p.listening && |samples| > 0 ==> 0 < t.state.offset
    ensures forall j :: 0 <= j < |t.frames| ==> |t.frames[j]| == BufferSize
  {
    if !p.listening then Rendered(p, [], true)
    else
      var r := LoopRebound(p.buffer, p.offset, samples);
      Rendered(Processor(true, r.buffer, r.offset), r.frames, true)
  }

  /** No sample is lost by the intended loop: the posted frames followed by
      the filled part of the current buffer are the old filled part followed
      by the encoding of every sample. */
  lemma {:induction false} LoopReboundLosesNothing(buf: seq<Byte>, offset: int, samples: seq<Sample>)
    requires |buf| == BufferSize && 0 <= offset <= BufferSize && offset % 2 == 0
    ensures var r := LoopRebound(buf, offset, samples);
      Flatten(r.frames) + r.buffer[..r.offset] == buf[..offset] + EncodeAll(samples)
    decreases |samples|
  {
    if |samples| > 0 {
      var q := Quantise(samples[0]);
      if offset >= BufferSize {
        var written := SetInt16LE(Zeros(BufferSize), 0, q);
        LoopReboundLosesNothing(written, 2, samples[1..]);
        PostStepLosesNothing(buf, samples);
      } else {
        var written := SetInt16LE(buf, offset, q);
        var r := LoopRebound(buf, offset, samples);
        assert r == LoopRebound(written, offset + 2, samples[1..]);
        assert Flatten(r.frames) + r.buffer[..r.offset] == written[..offset + 2] + EncodeAll(samples[1..]) by {
          LoopReboundLosesNothing(written, offset + 2, samples[1..]);
        }
        assert written[..offset + 2] + EncodeAll(samples[1..]) == buf[..offset] + EncodeAll(samples) by {
          SetInt16LEPrefix(buf, offset, q);
          ConcatAssoc(buf[..offset], EncodeInt16LE(q), EncodeAll(samples[1..]));
        }
      }
    }
  }

  /** The step of `LoopReboundLosesNothing` at a full buffer: the buffer is
      posted whole and the sample starts the fresh buffer. */
  lemma PostStepLosesNothing(buf: seq<Byte>, samples: seq<Sample>)
    requires |buf| == BufferSize && 0 < |samples|
    requires var written := SetInt16LE(Zeros(BufferSize), 0, Quantise(samples[0]));
      var rest := LoopRebound(written, 2, samples[1..]);
      Flatten(rest.frames) + rest.buffer[..rest.offset] == written[..2] + EncodeAll(samples[1..])
    ensures var r := LoopRebound(buf, BufferSize, samples);
      Flatten(r.frames) + r.buffer[..r.offset] == buf[..BufferSize] + EncodeAll(samples)
  {
  }

  /** Concatenation is associative; stated apart so that the proofs using it
      do not search for it among their other facts. */
  lemma ConcatAssoc(a: seq<Byte>, b: seq<Byte>, c: seq<Byte>)
    ensures (a + b) + c == a + (b + c)
  {
  }

  /** Corrected render call: nothing written is lost. */
  lemma ProcessReboundLosesNothing(p: Processor, samples: seq<Sample>)
    requires Valid(p) && p.listening
    ensures var t := ProcessRebound(p, samples);
      Flatten(t.frames) + t.state.buffer[..t.state.offset] == p.buffer[..p.offset] + EncodeAll(samples)
  {
    LoopReboundLosesNothing(p.buffer, p.offset, samples);
  }

  /** The loop as written loses samples: when a call starts on a full buffer,
      its first sample is written into the buffer being posted, and the
      output (the posted frames followed by the filled part of the new
      buffer) holds zeros where that sample's two bytes belong. */
  lemma AsWrittenLosesSamples(p: Processor, samples: seq<Sample>)
    requires Valid(p) && p.listening && p.offset == BufferSize
    requires 0 < |samples| && Quantise(samples[0]) != 0
    ensures var t := ProcessBlock(p, samples);
      Flatten(t.frames) + t.state.buffer[..t.state.offset] != p.buffer[..p.offset] + EncodeAll(samples)
  {
    var t := ProcessBlock(p, samples);
    var q := Quantise(samples[0]);
    var tail := Flatten(t.frames[1..]) + t.state.buffer[..t.state.offset];
    var out := Flatten(t.frames) + t.state.buffer[..t.state.offset];
    var expected := p.buffer[..p.offset] + EncodeAll(samples);
    assert out == t.frames[0] + tail by {
      ConcatAssoc(t.frames[0], Flatten(t.frames[1..]), t.state.buffer[..t.state.offset]);
    }
    assert tail[0] == 0 && tail[1] == 0 by {
      FlattenZeros(t.frames[1..]);
    }
    assert out[BufferSize .. BufferSize + 2] == [0, 0] by {
      assert |t.frames[0]| == BufferSize;
    }
    assert expected[BufferSize .. BufferSize + 2] == EncodeInt16LE(q);
    assert EncodeInt16LE(q) != [0, 0] by {
      DecodeEncode(q);
    }
  }
}
