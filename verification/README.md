# Streaming transcription client: PCM chunk assembler and transcript fold

This project is a Dafny model of the two pieces of logic in a browser client
that streams microphone audio to Amazon Transcribe and shows the transcript
as it comes back.

- **The audio worklet processor** (`AudioProcessor`). It starts and stops
  listening when the page sends it `START_LISTEN` or `STOP_LISTEN`. In each
  render call it takes the samples of input channel 0 and converts each one
  to signed 16-bit PCM. Scaling is by 0x8000 for negative samples and 0x7fff
  otherwise, and ToInt16 of section 7.1.8 of ECMA-262 follows: truncation
  toward zero, then wrap-around modulo 2^16. Each value is written little
  endian into a 3200-byte buffer (100 ms at 16 kHz). A full buffer is posted
  to the page as an `AUDIO_DATA` message just before the next write.
- **The page's session hook** (`useTranscribe`).
  - `startRecording` checks the credentials, then the worklet node, and only
    then posts `START_LISTEN`.
  - The `AudioStream` generator turns every posted frame into one audio
    event of the streaming request.
  - The response loop folds transcript results into the two values the page
    shows: `partial` and `final`.

Modules, one concept each:

| file | module | contents |
|---|---|---|
| `wrappers.dfy` | `Wrappers` | `Option`, `Result` |
| `pcm.dfy` | `Pcm` | sample quantisation, the int16 little-endian codec, `setInt16` on a byte buffer |
| `audio_processor.dfy` | `AudioProcessor` | processor state, the listen gate, the render call as written, runs over a sequence of port messages and render quanta |
| `audio_processor_rebound.dfy` | `AudioProcessorRebound` | the render call as evidently intended, and the discrepancy (see Findings) |
| `transcript.dfy` | `Transcript` | the result-stream events and the `partial`/`final` fold |
| `session.dfy` | `Session` | `startRecording`, `stopRecording` and the outbound audio stream |

The processor's mutable fields become the immutable record `Processor`. A
render call is the pure function `ProcessBlock(p, samples)`, which returns the
next state and the frames posted during the call. A float32 sample is
`Finite(x)` with `x` a real, or `NonFinite` for NaN and the infinities.
Multiplying a float32 by 0x8000 or 0x7fff is exact in a double, so real
arithmetic followed by explicit truncation and wrap-around gives the same
16-bit value as the browser.

Edge cases the code decides, as the model states them:

- There is no clamping and no rounding to nearest. The comment in
  `public/worklets/audio-processor.js:48` describes the mapping of -1.0..1.0
  onto -32768..32767. Outside that range the value is truncated toward zero
  and wrapped, so 1.5 is stored as -16386 (`Pcm.OutOfRangeWraps`).
- While listening, an input without channel 0 makes `process` throw when it
  reads `length` (`AudioProcessor.Process`). The comment at
  `public/worklets/audio-processor.js:9` asks for silence to be sent when
  there is no audio, but nothing is sent for such an input.
- A full buffer is posted only just before the next write. So N > 0 samples
  written from offset o post (o+2N-1)/3200 frames
  (`AudioProcessor.ProcessBlock`). For example, o = 0 and N = 1600 fill the
  buffer and post no frame.
- A result whose `Alternatives` is an empty array throws inside the loop, and
  the `catch` ends the session. If the result is final,
  `setPartial(undefined)` has already run when the read throws, so the throw
  clears `partial` (`Transcript.ApplyResult`). If the result is partial, the
  read throws before any setter runs, so both values stay as they were.

## Model

| member | source | states |
|---|---|---|
| Pcm.Trunc | public/worklets/audio-processor.js:76-80 | the truncation toward zero of ToInt16: the result lies within one of the real, on the side toward zero |
| Pcm.Wrap16 | public/worklets/audio-processor.js:76-80 | the modulo-2^16 step of ToInt16: the result is a signed 16-bit value congruent to the input, and it is the input itself when that already fits |
| Pcm.Quantise | public/worklets/audio-processor.js:75-80 | the stored value of any sample, NaN and the infinities included, is a signed 16-bit value |
| Pcm.QuantiseNormalised | public/worklets/audio-processor.js:75-80 | a sample in [-1, 1] is stored within one step of its scaled value, on the same side of zero, with no wrap-around; 1.0 gives 32767 and -1.0 gives -32768 |
| Pcm.OutOfRangeWraps | public/worklets/audio-processor.js:76-80 | there is no clamping: 1.5 is stored as -16386 and -1.5 as 16384 |
| Pcm.EncodeInt16LE | public/worklets/audio-processor.js:76-80 | the two bytes written are the low byte and then the high byte of the two's-complement value |
| Pcm.DecodeInt16LE | public/worklets/audio-processor.js:76-80 | reading two bytes back always gives a signed 16-bit value |
| Pcm.DecodeEncode | public/worklets/audio-processor.js:76-80 | decoding the two written bytes returns the stored value |
| Pcm.EncodeDecode | public/worklets/audio-processor.js:76-80 | every byte pair is the encoding of the value it decodes to, so the encoding is a bijection |
| Pcm.EncodeAll | public/worklets/audio-processor.js:66-81 | a block of samples encodes to two bytes per sample |
| Pcm.EncodeAllAppend | public/worklets/audio-processor.js:66-81 | encoding distributes over concatenation of sample blocks |
| Pcm.EncodeAllAt | public/worklets/audio-processor.js:66-81 | sample i occupies bytes 2i and 2i+1, and they decode to its stored value |
| Pcm.SetInt16LE | public/worklets/audio-processor.js:76-80 | `setInt16` replaces exactly the two bytes at the offset with the encoding and keeps every other byte |
| Pcm.SetInt16LEPrefix | public/worklets/audio-processor.js:76-81 | after a write, the bytes up to the new offset are the old prefix followed by the written pair |
| Pcm.WriteAll | public/worklets/audio-processor.js:66-81 | consecutive writes keep the buffer length |
| Pcm.WriteAllLayout | public/worklets/audio-processor.js:66-81 | consecutive writes from an offset leave the old prefix, then the block's encoding, then the untouched rest |
| Pcm.Zeros | public/worklets/audio-processor.js:22 | a new `ArrayBuffer` has the requested size and is all zeros |
| AudioProcessor.FrameSize | public/worklets/audio-processor.js:16-21 | 100 ms at 16000 samples/s is 1600 samples; two bytes per sample of the single channel make a frame of 3200 bytes, an even number |
| AudioProcessor.Init | public/worklets/audio-processor.js:15-23 | the constructor leaves the processor idle at offset 0 with a zeroed 3200-byte buffer |
| AudioProcessor.OnMessage | public/worklets/audio-processor.js:25-32 | listening after a message iff it was `START_LISTEN`, or it was not `STOP_LISTEN` and listening was on before; buffer and offset never change |
| AudioProcessor.Loop | public/worklets/audio-processor.js:65-82 | the loop posts only whole frames; it keeps the offset even and within the buffer; offset plus two bytes per sample equals frames times 3200 plus the new offset; every frame after the first of a call, and every frame once the current buffer is no longer the one the view was bound to, is all zeros |
| AudioProcessor.ProcessBlock | public/worklets/audio-processor.js:64-84 | idle: state unchanged and nothing posted. Listening: o + 2N = k·3200 + o'; k = (o+2N-1)/3200 for N > 0; no frame iff o+2N ≤ 3200; all frames have 3200 bytes; the frames after the first are zeros, and so is the current buffer after a post. The state stays valid, listening is unchanged, and the call returns true |
| AudioProcessor.Process | public/worklets/audio-processor.js:62-84 | idle calls do nothing whatever the input; a listening call without channel 0 throws; otherwise it is one render call |
| AudioProcessor.LoopWithoutEmission | public/worklets/audio-processor.js:66-81 | while the block fits, the loop is plain consecutive writes into the bound buffer and posts nothing |
| AudioProcessor.LoopFirstFrame | public/worklets/audio-processor.js:65-76 | the first frame a call posts is the bound buffer filled by the call's first (3200-o)/2 samples |
| AudioProcessor.ProcessBlockWithoutPost | public/worklets/audio-processor.js:66-81 | a call that posts nothing appends the encoding of its samples to the current frame and leaves the bytes beyond untouched |
| AudioProcessor.ProcessBlockFirstFrame | public/worklets/audio-processor.js:65-76 | the first posted frame is the current frame's filled prefix followed by the encoding of the samples that complete it, a snapshot taken at the post |
| AudioProcessor.AudioMessages | public/worklets/audio-processor.js:68-71 | each posted frame becomes one `AUDIO_DATA` message carrying it, in order |
| AudioProcessor.Handle | public/worklets/audio-processor.js:25-84 | a port message only runs the listen gate; a render quantum throws iff the processor is listening and the input has no channel 0, and then posts nothing and changes nothing; otherwise the next state is the render call's and the posted messages are its frames, one `AUDIO_DATA` message each, in order, each 3200 bytes |
| AudioProcessor.RunWorklet | public/worklets/audio-processor.js:25-84 | over any sequence of inputs the state stays valid and every message posted is `AUDIO_DATA` with 3200 bytes |
| AudioProcessor.RunWorkletAppend | public/worklets/audio-processor.js:25-84 | a run over two stretches of input is the first run followed by the second from where it left off |
| AudioProcessor.IdleRunKeepsState | public/worklets/audio-processor.js:64-84 | an idle processor that is not started posts nothing and keeps its state, whatever it renders |
| AudioProcessor.StopNeverFlushes | public/worklets/audio-processor.js:29-31 | after `STOP_LISTEN` nothing is posted until the next start, and the partly filled frame and offset are kept |
| AudioProcessor.ResumeMidFrame | public/worklets/audio-processor.js:25-32 | stop, any idle period, then start continues exactly as if the idle period had not happened |
| AudioProcessorRebound.LoopRebound | public/worklets/audio-processor.js:65-82 | the intended loop, whose writes go into the current buffer, obeys the same byte accounting and posts only whole frames |
| AudioProcessorRebound.ProcessRebound | public/worklets/audio-processor.js:64-84 | the intended render call: idle does nothing; listening keeps the same accounting as the call as written |
| AudioProcessorRebound.LoopReboundLosesNothing | public/worklets/audio-processor.js:65-82 | in the intended loop, the posted frames followed by the current filled prefix are the old prefix followed by every sample's encoding |
| AudioProcessorRebound.ProcessReboundLosesNothing | public/worklets/audio-processor.js:64-84 | the intended render call loses no sample |
| AudioProcessorRebound.AsWrittenLosesSamples | public/worklets/audio-processor.js:65-76 | the call as written, started on a full buffer with a nonzero first sample, produces a byte stream that differs from the encoding of its samples |
| Transcript.FirstTranscript | src/app/client_transcribe/_hooks/useTranscribe.ts:126 | `Alternatives?.[0].Transcript` is undefined without alternatives, the first alternative's transcript otherwise, and throws exactly on an empty array |
| Transcript.Shown | src/app/client_transcribe/_hooks/useTranscribe.ts:125-131 | a partial result shows its transcript as `partial` and clears `final`; a final one clears `partial` and shows it as `final`; at most one is defined |
| Transcript.ApplyResult | src/app/client_transcribe/_hooks/useTranscribe.ts:125-131 | a result stops the loop iff reading its transcript throws; otherwise the display is what it shows, independent of the display before; a throw keeps both values (partial) or clears only `partial` (final); at most one value stays defined |
| Transcript.ApplyResults | src/app/client_transcribe/_hooks/useTranscribe.ts:124-132 | an event without results changes nothing, and folding results keeps at most one value defined |
| Transcript.ResultsOf | src/app/client_transcribe/_hooks/useTranscribe.ts:124 | a missing `TranscriptEvent`, `Transcript` or `Results` gives no results; otherwise the results in order |
| Transcript.Consume | src/app/client_transcribe/_hooks/useTranscribe.ts:123-138 | the consuming loop keeps at most one of `partial` and `final` defined |
| Transcript.Transcribe | src/app/client_transcribe/_hooks/useTranscribe.ts:118-138 | a missing result stream returns with the display unchanged; otherwise the stream is consumed |
| Transcript.MissingFieldsAreNoOps | src/app/client_transcribe/_hooks/useTranscribe.ts:124 | an event missing a link of the results path, or with no results, is a no-op and does not stop the loop |
| Transcript.ApplyResultsAppend | src/app/client_transcribe/_hooks/useTranscribe.ts:124-132 | folding two runs of results is folding the first and then, unless it stopped, the second |
| Transcript.LastResultWins | src/app/client_transcribe/_hooks/useTranscribe.ts:124-132 | after results that all go through, the display is the one the last result shows, whatever it was before |
| Transcript.ConsumeIsFoldOverResults | src/app/client_transcribe/_hooks/useTranscribe.ts:123-134 | without read errors, consuming event by event is one fold over all results of all events |
| Transcript.StreamLastResultWins | src/app/client_transcribe/_hooks/useTranscribe.ts:123-134 | across a whole stream without exceptions, the display depends only on the last result processed |
| Transcript.ConsumeAppend | src/app/client_transcribe/_hooks/useTranscribe.ts:123-138 | consuming two stretches of the stream is consuming the first and then, unless it stopped, the second |
| Transcript.ReadErrorStopsProcessing | src/app/client_transcribe/_hooks/useTranscribe.ts:123-138 | a failing read ends processing; nothing after it is looked at, and the display stays as it was just before |
| Transcript.StoppedIgnoresTheRest | src/app/client_transcribe/_hooks/useTranscribe.ts:123-138 | once a result has thrown, the events after it change nothing |
| Transcript.GreetingExample | src/app/client_transcribe/_hooks/useTranscribe.ts:125-131 | two partial results and then a final one: each partial replaces the previous one, and the final clears the partial |
| Session.AudioStream | src/app/client_transcribe/_hooks/useTranscribe.ts:109-114 | exactly one audio event per worklet message, carrying its `audioData` unchanged, in arrival order |
| Session.AudioStreamAppend | src/app/client_transcribe/_hooks/useTranscribe.ts:109-114 | the events for later messages are appended after those already yielded |
| Session.SentChunksAreWholeFrames | src/app/client_transcribe/_hooks/useTranscribe.ts:109-113 | every audio chunk sent is one whole 3200-byte frame, an even byte count |
| Session.SentInProductionOrder | src/app/client_transcribe/_hooks/useTranscribe.ts:109-113 | what has been sent after some processor inputs stays the start of what is sent after more inputs: nothing is dropped or reordered |
| Session.StartRecording | src/app/client_transcribe/_hooks/useTranscribe.ts:64-78 | a failed credential fetch rethrows and posts nothing; missing credentials throw "unauthorized"; a missing worklet throws "audio worklet not found"; `START_LISTEN` is posted iff both checks pass; the session finishes iff the request is also sent, with the display the stream produces |
| Session.StopRecording | src/app/client_transcribe/_hooks/useTranscribe.ts:80-82 | `STOP_LISTEN` is posted iff the worklet node exists |
| Session.Controls | src/app/client_transcribe/_hooks/useTranscribe.ts:76 | every posted control message reaches the processor as a port message, in order |
| Session.GuardsGateListening | src/app/client_transcribe/_hooks/useTranscribe.ts:64-76 | through `startRecording`, the processor is listening afterwards iff it already was or both checks passed; its buffer and offset are untouched and nothing is posted |
| Session.StopRecordingNeverFlushes | src/app/client_transcribe/_hooks/useTranscribe.ts:80-82 | after `stopRecording` the processor posts nothing until started again, and it keeps its partly filled frame |

## Left out

- `fetchCredentials` and the STS route are HTTP and STS plumbing. Their outcome is the `fetched` parameter of `Session.StartRecording`: the credentials, their absence, or the error they threw.
- `initializeAudio` and `cleanup` only build and tear down the audio graph. The model assumes the worklet node exists or does not (`hasWorklet`).
- `TranscribeStreamingClient` and `client.send` are a foreign SDK and a network call. The outcome of `send` is a parameter, and the response's result stream is a given sequence of events or read errors.
- The concurrency between the port, the async iterator and the request is not modelled. Both directions are ordered sequences, and the processor handles port messages and render quanta one at a time in a given order.
- The page's rendering and the CDK stack are not part of this model.
- Float32 arithmetic is not modelled as such. A sample is a real, or non-finite; the products with 0x8000 and 0x7fff are exact in a double.
- Port data other than a string is not modelled. Such data equals neither control message, so it behaves like any other string.
- `IsPartial` is a boolean. An absent flag is falsy and takes the final branch, which is what `false` does.
- After `process` throws, the Web Audio API stops calling the processor. A run therefore ends at the first throwing render call, and later port messages are not modelled.
- Console logging is not modelled.
- Pcm.Quantise: its contract gives only the 16-bit range. The value it takes is stated by `Pcm.QuantiseNormalised` for normalised samples and by `Pcm.OutOfRangeWraps` for two out-of-range ones, not for every real.
- AudioProcessor.RunWorklet: it uses the render call as written, including the loss described under Findings, because that is what the deployed processor posts. The corrected call is stated and proved on its own in `AudioProcessorRebound`.

## Findings

| source | as written | input that shows it | evidently intended | confidence | as-written member | corrected member |
|---|---|---|---|---|---|---|
| public/worklets/audio-processor.js:65-76 | The `DataView` is bound to `this.buffer` once, on entry to `process`. After a post and `this.buffer = new ArrayBuffer(...)` in the middle of a call, the remaining `setInt16` calls write into the buffer just posted, which is already cloned and never read again. The samples of the rest of that call are lost, and the fresh buffer keeps zeros in their place. | A listening processor at offset 3200, given a block whose first sample is 0.5: that sample's bytes appear in no frame, and the new buffer holds zeros at bytes 0-1. With 128-sample render quanta, the calls that start at offset 3072 lose 64 samples and those that start at 3200 lose 128: 192 of every 3200 samples become silence. | Every sample's two bytes reach the stream in order, with the writes after a post going into the fresh buffer. | high, not executed | AudioProcessorRebound.AsWrittenLosesSamples | AudioProcessorRebound.ProcessReboundLosesNothing |
