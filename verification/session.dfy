/** The main-thread side of a recording: the guards of `startRecording`,
    `stopRecording`, and the outbound adapter that turns the processor's
    posted messages into the audio events of the streaming request. */
module Session {
  import opened Wrappers
  import opened Pcm
  import opened AudioProcessor
  import opened Transcript

  /** `{ AudioEvent: { AudioChunk } }`, one element of the request's audio
      stream. */
  datatype AudioStreamEvent = AudioEvent(audioChunk: seq<Byte>)

  /** The `AudioStream` generator: one audio event per message from the
      processor, carrying its `audioData` unchanged, in arrival order. */
  function AudioStream(messages: seq<WorkletMessage>): (events: seq<AudioStreamEvent>)
    ensures |events| == |messages|
    ensures forall i :: 0 <= i < |messages| ==> events[i] == AudioEvent(messages[i].audioData)
    decreases |messages|
  {
    if |messages| == 0 then []
    else [AudioEvent(messages[0].audioData)] + AudioStream(messages[1..])
  }

  /** The generator is incremental: the events yielded for the messages that
      have arrived so far are a prefix of the events for any longer arrival
      sequence. */
  lemma {:induction false} AudioStreamAppend(a: seq<WorkletMessage>, b: seq<WorkletMessage>)
    ensures AudioStream(a + b) == AudioStream(a) + AudioStream(b)
    decreases |a|
  {
    if |a| == 0 {
      assert a + b == b;
    } else {
      assert (a + b)[0] == a[0];
      assert (a + b)[1..] == a[1..] + b;
      AudioStreamAppend(a[1..], b);
    }
  }

  /** Every audio chunk sent during a run of the processor is one whole frame
      of 3200 bytes, an even number as single-channel 16-bit PCM needs. */
  lemma SentChunksAreWholeFrames(p: Processor, inputs: seq<WorkletInput>)
    requires Valid(p)
    ensures var events := AudioStream(RunWorklet(p, inputs).posted);
      forall i :: 0 <= i < |events| ==> |events[i].audioChunk| == 3200 && |events[i].audioChunk| % 2 == 0
  {
  }

  /** Frames are sent in the order the processor produced them and none is
      dropped: what has been sent after some inputs stays the start of what is
      sent after more inputs. */
  lemma SentInProductionOrder(p: Processor, a: seq<WorkletInput>, b: seq<WorkletInput>)
    requires Valid(p)
    ensures var early := AudioStream(RunWorklet(p, a).posted);
      var all := AudioStream(RunWorklet(p, a + b).posted);
      |early| <= |all| && early == all[..|early|]
  {
    RunWorkletAppend(p, a, b);
    var ra := RunWorklet(p, a);
    if !ra.failed {
      AudioStreamAppend(ra.posted, RunWorklet(ra.state, b).posted);
    }
  }

  datatype Credentials = Credentials(accessKeyId: string, secretAccessKey: string, sessionToken: string)

  /** The resolved value of `client.send`. */
  datatype Response = Response(transcriptResultStream: Option<seq<StreamItem>>)

  /** How `startRecording` ends: it throws, or `transcribe` returns. Either
      way, `posted` lists the control messages sent to the processor. */
  datatype Recording =
    | Threw(error: string, posted: seq<string>)
    | Finished(posted: seq<string>, display: Display)

  /** `startRecording`. `fetched` is what awaiting `fetchCredentials` gave:
      the body's `credentials` field, or the message it threw with;
      `hasWorklet` says whether the worklet node exists; `sent` is what
      awaiting `client.send` gave; `d` is the display before the session.
      The credentials are checked first, then the worklet; only then is
      `START_LISTEN` posted, before the request is sent. */
  function StartRecording(fetched: Result<Option<Credentials>, string>, hasWorklet: bool,
                          sent: Result<Response, string>, d: Display): (r: Recording)
    ensures r.posted == [] || r.posted == [StartListen]
    ensures r.posted == [StartListen] <==> fetched.Success? && fetched.value.Some? && hasWorklet
    ensures fetched.Failure? ==> r == Threw(fetched.error, [])
    ensures fetched == Success(None) ==> r == Threw("unauthorized", [])
    ensures fetched.Success? && fetched.value.Some? && !hasWorklet ==> r == Threw("audio worklet not found", [])
    ensures r.Finished? <==> fetched.Success? && fetched.value.Some? && hasWorklet && sent.Success?
    ensures r.Finished? ==> r.display == Transcribe(d, sent.value.transcriptResultStream)
    ensures r.Threw? && r.posted == [StartListen] ==> sent.Failure? && r.error == sent.error
  {
    match fetched
    case Failure(e) => Threw(e, [])
    case Success(credentials) =>
      if credentials.None? then Threw("unauthorized", [])
      else if !hasWorklet then Threw("audio worklet not found", [])
      else match sent
        case Failure(e) => Threw(e, [StartListen])
        case Success(response) => Finished([StartListen], Transcribe(d, response.transcriptResultStream))
  }

  /** `stopRecording`: `STOP_LISTEN` is posted when the worklet node exists. */
  function StopRecording(hasWorklet: bool): (posted: seq<string>)
    ensures hasWorklet ==> posted == [StopListen]
    ensures !hasWorklet ==> posted == []
  {
    if hasWorklet then [StopListen] else []
  }

  /** The control messages as the processor receives them. */
  function Controls(messages: seq<string>): (inputs: seq<WorkletInput>)
    ensures |inputs| == |messages|
    ensures forall i :: 0 <= i < |messages| ==> inputs[i] == PortMessage(messages[i])
  {
    seq(|messages|, i requires 0 <= i < |messages| => PortMessage(messages[i]))
  }

  /** The guards gate capture: the processor starts listening through
      `startRecording` exactly when both checks pass, and a failed check
      leaves it untouched. */
  lemma GuardsGateListening(p: Processor, fetched: Result<Option<Credentials>, string>, hasWorklet: bool,
                            sent: Result<Response, string>, d: Display)
    requires Valid(p)
    ensures var q := RunWorklet(p, Controls(StartRecording(fetched, hasWorklet, sent, d).posted));
      && !q.failed && q.posted == []
      && q.state.buffer == p.buffer && q.state.offset == p.offset
      && (q.state.listening <==> p.listening || (fetched.Success? && fetched.value.Some? && hasWorklet))
  {
    var posted := StartRecording(fetched, hasWorklet, sent, d).posted;
    if posted != [] {
      assert Controls(posted)[1..] == [];
    }
  }

  /** After `stopRecording` the processor posts nothing more until it is
      started again, and keeps its partly filled frame. */
  lemma StopRecordingNeverFlushes(p: Processor, inputs: seq<WorkletInput>)
    requires Valid(p) && NoStart(inputs)
    ensures RunWorklet(p, Controls(StopRecording(true)) + inputs) == WorkletRun(p.(listening := false), [], false)
  {
    assert Controls(StopRecording(true)) == [PortMessage(StopListen)];
    StopNeverFlushes(p, inputs);
  }
}
