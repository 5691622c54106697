/** The audio worklet processor: a listen gate driven by port messages and a
    render callback that quantises each input sample to 16-bit PCM and packs
    the bytes into fixed-size frames, posting each full frame to the main
    thread.

    The processor's mutable fields become the immutable record `Processor`;
    one render call is the pure function `ProcessBlock`, which returns the
    next record and the frames posted during the call. */
module AudioProcessor {
  import opened Wrappers
  import opened Pcm

  const ChannelCount := 1
  const ChunkDurationMs := 100
  const SampleRate := 16000
  /** Samples per frame: `(ChunkDurationMs / 1000) * SampleRate`, which the
      source evaluates in doubles to exactly 1600. */
  const SampleCountPerChunk := 1600
  /** Bytes per frame: two per 16-bit sample of the single channel. */
  const BufferSize := SampleCountPerChunk * 2

  /** The control messages the main thread sends through the port. */
  const StartListen := "START_LISTEN"
  const StopListen := "STOP_LISTEN"
  /** The `message` field of every frame the processor posts. */
  const AudioDataMessage := "AUDIO_DATA"

  type Frame = seq<Byte>

  /** The processor's state: the listen flag, the frame being filled and the
      byte offset of the next write into it. */
  datatype Processor = Processor(listening: bool, buffer: seq<Byte>, offset: int)

  /** What every reachable state satisfies: the buffer has the frame size and
      the offset is an even position within it (possibly at its end). */
  predicate Valid(p: Processor) {
    && |p.buffer| == BufferSize
    && 0 <= p.offset <= BufferSize
    && p.offset % 2 == 0
  }

  /** The frame size follows from the chunk duration and the sample rate,
      and is even, as single-channel 16-bit PCM requires. */
  lemma FrameSize()
    ensures SampleCountPerChunk == ChunkDurationMs * SampleRate / 1000
    ensures BufferSize == SampleCountPerChunk * 2 * ChannelCount
    ensures BufferSize == 3200 && BufferSize % 2 == 0
  {
  }

  /** The state the constructor builds: idle, a zeroed 3200-byte buffer and
      offset 0. */
  function Init(): (p: Processor)
    ensures Valid(p)
    ensures !p.listening && p.offset == 0
    ensures |p.buffer| == 3200 && |p.buffer| % 2 == 0
    ensures forall i :: 0 <= i < |p.buffer| ==> p.buffer[i] == 0
  {
    Processor(false, Zeros(BufferSize), 0)
  }

  /** The port's message handler: it only ever changes the listen flag. */
  function OnMessage(p: Processor, data: string): (q: Processor)
    ensures q.buffer == p.buffer && q.offset == p.offset
    ensures q.listening <==> data == StartListen || (data != StopListen && p.listening)
    ensures Valid(p) ==> Valid(q)
  {
    if data == StartListen then p.(listening := true)
    else if data == StopListen then p.(listening := false)
    else p
  }

  /** The variables of the render loop: the buffer the `DataView` was bound
      to on entry (`view`), whether the processor's current buffer is still
      that same buffer (`aliased`), the write offset, and the frames posted
      so far. Once a frame has been posted the current buffer is a freshly
      allocated one that no write reaches, so it is all zeros. */
  datatype LoopState = LoopState(view: seq<Byte>, aliased: bool, offset: int, frames: seq<Frame>)

  /** The render loop over the remaining samples. Before each write, a full
      buffer is posted and replaced by a fresh one and the offset resets to
      0; the write itself always goes through the view bound on entry. */
  function Loop(view: seq<Byte>, aliased: bool, offset: int, samples: seq<Sample>): (r: LoopState)
    requires |view| == BufferSize && 0 <= offset <= BufferSize && offset % 2 == 0
    ensures |r.view| == BufferSize
    ensures 0 <= r.offset <= BufferSize && r.offset % 2 == 0
    ensures offset + 2 * |samples| == |r.frames| * BufferSize + r.offset
    ensures |samples| > 0 ==> 0 < r.offset
    ensures r.aliased <==> aliased && |r.frames| == 0
    ensures forall j :: 0 <= j < |r.frames| ==> |r.frames[j]| == BufferSize
    ensures forall j :: 0 <= j < |r.frames| && (0 < j || !aliased) ==> r.frames[j] == Zeros(BufferSize)
    decreases |samples|
  {
    if |samples| == 0 then LoopState(view, aliased, offset, [])
    else if offset >= BufferSize then
      // Post the current buffer, replace it, then write at offset 0 of the view.
      var posted := if aliased then view else Zeros(BufferSize);
      var rest := Loop(SetInt16LE(view, 0, Quantise(samples[0])), false, 2, samples[1..]);
      LoopState(rest.view, rest.aliased, rest.offset, [posted] + rest.frames)
    else
      Loop(SetInt16LE(view, offset, Quantise(samples[0])), aliased, offset + 2, samples[1..])
  }

  /** The result of one render call: the next state, the frames posted in
      order, and the value `process` returns. */
  datatype Rendered = Rendered(state: Processor, frames: seq<Frame>, keepAlive: bool)

  /** One render call on the samples of input channel 0. While idle nothing
      happens. While listening, `k` full frames are posted and the offset
      advances by two bytes per sample modulo the frame size; no frame is
      ever partial. After a call that posted a frame the current buffer is
      all zeros, because the writes that followed the post went into the
      buffer that had just been posted. */
  function ProcessBlock(p: Processor, samples: seq<Sample>): (t: Rendered)
    requires Valid(p)
    ensures Valid(t.state) && t.keepAlive && t.state.listening == p.listening
    ensures !p.listening ==> t.state == p && t.frames == []
    ensures p.listening ==> p.offset + 2 * |samples| == |t.frames| * BufferSize + t.state.offset
    ensures p.listening && |samples| > 0 ==> 0 < t.state.offset
    ensures p.listening && |samples| > 0 ==> |t.frames| == (p.offset + 2 * |samples| - 1) / BufferSize
    ensures |t.frames| == 0 <==> !p.listening || p.offset + 2 * |samples| <= BufferSize
    ensures forall j :: 0 <= j < |t.frames| ==> |t.frames[j]| == BufferSize
    ensures forall j :: 0 < j < |t.frames| ==> t.frames[j] == Zeros(BufferSize)
    ensures 0 < |t.frames| ==> t.state.buffer == Zeros(BufferSize)
  {
    if !p.listening then Rendered(p, [], true)
    else
      var r := Loop(p.buffer, true, p.offset, samples);
      Rendered(Processor(true, if r.aliased then r.view else Zeros(BufferSize), r.offset), r.frames, true)
  }

  /** `process`: the input channel is read only while listening; when the
      input has no channel 0 then, reading its `length` throws. */
  function Process(p: Processor, channel: Option<seq<Sample>>): (r: Result<Rendered, string>)
    requires Valid(p)
    ensures !p.listening ==> r == Success(Rendered(p, [], true))
    ensures p.listening && channel.None? ==> r.Failure?
    ensures p.listening && channel.Some? ==> r == Success(ProcessBlock(p, channel.value))
  {
    if !p.listening then Success(Rendered(p, [], true))
    else match channel
      case None => Failure("TypeError: cannot read properties of undefined (reading 'length')")
      case Some(samples) => Success(ProcessBlock(p, samples))
  }

  /** One iteration of the render loop that finds room in the buffer: the
      sample is written at the offset and nothing is posted. */
  lemma LoopWrites(view: seq<Byte>, aliased: bool, offset: int, samples: seq<Sample>)
    requires |view| == BufferSize && 0 <= offset < BufferSize && offset % 2 == 0
    requires 0 < |samples|
    ensures Loop(view, aliased, offset, samples)
         == Loop(SetInt16LE(view, offset, Quantise(samples[0])), aliased, offset + 2, samples[1..])
  {
    var rest := Loop(SetInt16LE(view, offset, Quantise(samples[0])), aliased, offset + 2, samples[1..]);
    assert [] + rest.frames == rest.frames;
  }

  /** Without a post, the loop is plain consecutive writes into the view. */
  lemma {:induction false} LoopWithoutEmission(view: seq<Byte>, aliased: bool, offset: int, samples: seq<Sample>)
    requires |view| == BufferSize && 0 <= offset <= BufferSize && offset % 2 == 0
    requires offset + 2 * |samples| <= BufferSize
    ensures Loop(view, aliased, offset, samples)
         == LoopState(WriteAll(view, offset, samples), aliased, offset + 2 * |samples|, [])
    decreases |samples|
  {
    if |samples| > 0 {
      LoopWrites(view, aliased, offset, samples);
      LoopWithoutEmission(SetInt16LE(view, offset, Quantise(samples[0])), aliased, offset + 2, samples[1..]);
    }
  }

  /** One iteration of the render loop that finds the buffer full: the
      current buffer is posted, a fresh one replaces it, and the sample is
      written at offset 0 of the view bound on entry. */
  lemma LoopPosts(view: seq<Byte>, aliased: bool, samples: seq<Sample>)
    requires |view| == BufferSize && 0 < |samples|
    ensures var rest := Loop(SetInt16LE(view, 0, Quantise(samples[0])), false, 2, samples[1..]);
      Loop(view, aliased, BufferSize, samples)
        == LoopState(rest.view, rest.aliased, rest.offset, [if aliased then view else Zeros(BufferSize)] + rest.frames)
  {
  }

  /** The first frame posted in a call is the entry buffer as it stood at
      that moment: filled up by the first samples of the call. */
  lemma {:induction false} LoopFirstFrame(view: seq<Byte>, offset: int, samples: seq<Sample>)
    requires |view| == BufferSize && 0 <= offset <= BufferSize && offset % 2 == 0
    requires offset + 2 * |samples| > BufferSize
    ensures var r := Loop(view, true, offset, samples);
      0 < |r.frames| && r.frames[0] == WriteAll(view, offset, samples[..(BufferSize - offset) / 2])
    decreases |samples|
  {
    if offset >= BufferSize {
      LoopPosts(view, true, samples);
      assert samples[..(BufferSize - offset) / 2] == [];
    } else {
      var written := SetInt16LE(view, offset, Quantise(samples[0]));
      LoopFirstFrame(written, offset + 2, samples[1..]);
      LoopFirstFrameStep(view, offset, samples);
    }
  }

  /** The inductive step of `LoopFirstFrame`: a write that finds room moves
      the first frame's description one sample along. */
  lemma LoopFirstFrameStep(view: seq<Byte>, offset: int, samples: seq<Sample>)
    requires |view| == BufferSize && 0 <= offset < BufferSize && offset % 2 == 0
    requires offset + 2 * |samples| > BufferSize
    requires var written := SetInt16LE(view, offset, Quantise(samples[0]));
      var r := Loop(written, true, offset + 2, samples[1..]);
      0 < |r.frames| && r.frames[0] == WriteAll(written, offset + 2, samples[1..][..(BufferSize - offset - 2) / 2])
    ensures var r := Loop(view, true, offset, samples);
      0 < |r.frames| && r.frames[0] == WriteAll(view, offset, samples[..(BufferSize - offset) / 2])
  {
    var m := (BufferSize - offset) / 2;
    var written := SetInt16LE(view, offset, Quantise(samples[0]));
    LoopWrites(view, true, offset, samples);
    assert m - 1 == (BufferSize - offset - 2) / 2;
    assert samples[1..][..m - 1] == samples[..m][1..];
    assert samples[..m][0] == samples[0];
  }

  /** A render call that posts nothing appends the encoding of its samples to
      the current frame and leaves the bytes past the new offset untouched. */
  lemma ProcessBlockWithoutPost(p: Processor, samples: seq<Sample>)
    requires Valid(p) && p.listening
    requires p.offset + 2 * |samples| <= BufferSize
    ensures var t := ProcessBlock(p, samples);
      && t.frames == []
      && t.state.buffer[..t.state.offset] == p.buffer[..p.offset] + EncodeAll(samples)
      && t.state.buffer[t.state.offset..] == p.buffer[t.state.offset..]
  {
    var written := WriteAll(p.buffer, p.offset, samples);
    var end := p.offset + 2 * |samples|;
    assert ProcessBlock(p, samples) == Rendered(Processor(true, written, end), [], true) by {
      LoopWithoutEmission(p.buffer, true, p.offset, samples);
    }
    WriteAllLayout(p.buffer, p.offset, samples);
  }

  /** The first frame a render call posts is a snapshot of the current frame
      completed by the first samples of the call, taken when it is posted. */
  lemma ProcessBlockFirstFrame(p: Processor, samples: seq<Sample>)
    requires Valid(p) && p.listening
    requires p.offset + 2 * |samples| > BufferSize
    ensures var t := ProcessBlock(p, samples);
      0 < |t.frames| && t.frames[0] == p.buffer[..p.offset] + EncodeAll(samples[..(BufferSize - p.offset) / 2])
  {
    var m := (BufferSize - p.offset) / 2;
    var first := WriteAll(p.buffer, p.offset, samples[..m]);
    assert 0 < |ProcessBlock(p, samples).frames| && ProcessBlock(p, samples).frames[0] == first by {
      assert ProcessBlock(p, samples).frames == Loop(p.buffer, true, p.offset, samples).frames;
      LoopFirstFrame(p.buffer, p.offset, samples);
    }
    assert first == p.buffer[..p.offset] + EncodeAll(samples[..m]) by {
      WriteAllLayout(p.buffer, p.offset, samples[..m]);
      assert p.offset + 2 * m == |first|;
      assert first[..|first|] == first;
    }
  }

  /** A message the processor posts to the main thread. */
  datatype WorkletMessage = WorkletMessage(message: string, audioData: Frame)

  function AudioMessages(frames: seq<Frame>): (ms: seq<WorkletMessage>)
    ensures |ms| == |frames|
    ensures forall i :: 0 <= i < |frames| ==> ms[i] == WorkletMessage(AudioDataMessage, frames[i])
  {
    seq(|frames|, i requires 0 <= i < |frames| => WorkletMessage(AudioDataMessage, frames[i]))
  }

  /** What reaches the processor, in the order its single thread handles it:
      a port message, or a render quantum with its input channel 0 (absent
      when the input has no channel). */
  datatype WorkletInput = PortMessage(data: string) | RenderQuantum(channel: Option<seq<Sample>>)

  /** The outcome of a run: the final state, everything posted, and whether a
      render call threw (after which the processor is not run again). */
  datatype WorkletRun = WorkletRun(state: Processor, posted: seq<WorkletMessage>, failed: bool)

  /** How the processor handles one input. */
  function Handle(p: Processor, input: WorkletInput): (r: WorkletRun)
    requires Valid(p)
    ensures Valid(r.state)
    ensures input.PortMessage? ==> r == WorkletRun(OnMessage(p, input.data), [], false)
    ensures input.RenderQuantum? ==> (r.failed <==> p.listening && input.channel.None?)
    ensures input.RenderQuantum? && !r.failed ==>
      && r.state == Process(p, input.channel).value.state
      && r.posted == AudioMessages(Process(p, input.channel).value.frames)
    ensures r.failed ==> r.posted == [] && r.state == p
    ensures forall i :: 0 <= i < |r.posted| ==>
      r.posted[i].message == AudioDataMessage && |r.posted[i].audioData| == BufferSize
  {
    match input
    case PortMessage(data) => WorkletRun(OnMessage(p, data), [], false)
    case RenderQuantum(channel) =>
      match Process(p, channel)
      case Failure(_) => WorkletRun(p, [], true)
      case Success(t) => WorkletRun(t.state, AudioMessages(t.frames), false)
  }

  /** The processor's life over a sequence of inputs, stopping at the first
      render call that throws. */
  function RunWorklet(p: Processor, inputs: seq<WorkletInput>): (r: WorkletRun)
    requires Valid(p)
    ensures Valid(r.state)
    ensures forall i :: 0 <= i < |r.posted| ==>
      r.posted[i].message == AudioDataMessage && |r.posted[i].audioData| == BufferSize
    decreases |inputs|
  {
    if |inputs| == 0 then WorkletRun(p, [], false)
    else
      var first := Handle(p, inputs[0]);
      if first.failed then first
      else
        var rest := RunWorklet(first.state, inputs[1..]);
        WorkletRun(rest.state, first.posted + rest.posted, rest.failed)
  }

  /** A run over two consecutive input sequences is the first run followed by
      the second from where the first left off. */
  lemma {:induction false} RunWorkletAppend(p: Processor, a: seq<WorkletInput>, b: seq<WorkletInput>)
    requires Valid(p)
    ensures var ra := RunWorklet(p, a);
      RunWorklet(p, a + b) ==
        if ra.failed then ra
        else var rb := RunWorklet(ra.state, b); WorkletRun(rb.state, ra.posted + rb.posted, rb.failed)
    decreases |a|
  {
    if |a| == 0 {
      assert a + b == b;
    } else {
      assert (a + b)[0] == a[0];
      assert (a + b)[1..] == a[1..] + b;
      var first := Handle(p, a[0]);
      if !first.failed {
        RunWorkletAppend(first.state, a[1..], b);
        var ra' := RunWorklet(first.state, a[1..]);
        if !ra'.failed {
          var rb := RunWorklet(ra'.state, b);
          assert first.posted + (ra'.posted + rb.posted) == (first.posted + ra'.posted) + rb.posted;
        }
      }
    }
  }

  predicate NoStart(inputs: seq<WorkletInput>) {
    forall i :: 0 <= i < |inputs| ==> inputs[i] != PortMessage(StartListen)
  }

  /** An idle processor that is not told to start stays exactly as it is and
      posts nothing, whatever it is given to render. */
  lemma {:induction false} IdleRunKeepsState(p: Processor, inputs: seq<WorkletInput>)
    requires Valid(p) && !p.listening && NoStart(inputs)
    ensures RunWorklet(p, inputs) == WorkletRun(p, [], false)
    decreases |inputs|
  {
    if |inputs| > 0 {
      assert inputs[0] != PortMessage(StartListen);
      assert NoStart(inputs[1..]) by {
        forall i | 0 <= i < |inputs[1..]| ensures inputs[1..][i] != PortMessage(StartListen) {
          assert inputs[1..][i] == inputs[i + 1];
        }
      }
      IdleRunKeepsState(p, inputs[1..]);
    }
  }

  /** Stopping never flushes: after `STOP_LISTEN`, until the next
      `START_LISTEN`, nothing is posted and the partly filled frame and its
      offset are kept. */
  lemma StopNeverFlushes(p: Processor, inputs: seq<WorkletInput>)
    requires Valid(p) && NoStart(inputs)
    ensures RunWorklet(p, [PortMessage(StopListen)] + inputs) == WorkletRun(p.(listening := false), [], false)
  {
    assert ([PortMessage(StopListen)] + inputs)[1..] == inputs;
    IdleRunKeepsState(p.(listening := false), inputs);
  }

  /** Stop, any idle period, then start resumes mid-frame: the run continues
      exactly as if the idle period had not happened. */
  lemma ResumeMidFrame(p: Processor, idle: seq<WorkletInput>, rest: seq<WorkletInput>)
    requires Valid(p) && NoStart(idle)
    ensures RunWorklet(p, [PortMessage(StopListen)] + idle + [PortMessage(StartListen)] + rest)
         == RunWorklet(p.(listening := true), rest)
  {
    var stopped := [PortMessage(StopListen)] + idle;
    StopNeverFlushes(p, idle);
    assert [PortMessage(StopListen)] + idle + [PortMessage(StartListen)] + rest
        == stopped + ([PortMessage(StartListen)] + rest);
    RunWorkletAppend(p, stopped, [PortMessage(StartListen)] + rest);
    assert ([PortMessage(StartListen)] + rest)[1..] == rest;
  }
}
