/** The inbound half of a transcription session: folding the transcript
    events the service streams back into the two values the page shows, the
    current partial transcript and the current final one. */
module Transcript {
  import opened Wrappers

  /** The shapes of the streamed events, with every field the code reaches
      through optional chaining kept optional. */
  datatype Alternative = Alternative(transcript: Option<string>)
  /** `isPartial` stands for the truthiness of `IsPartial`: an absent flag
      takes the final branch. */
  datatype TranscriptResult = TranscriptResult(isPartial: bool, alternatives: Option<seq<Alternative>>)
  datatype TranscriptBody = TranscriptBody(results: Option<seq<TranscriptResult>>)
  datatype TranscriptEvent = TranscriptEvent(transcript: Option<TranscriptBody>)
  datatype ResultStreamEvent = ResultStreamEvent(transcriptEvent: Option<TranscriptEvent>)

  /** One step of iterating the result stream: an event, or a read that
      throws (a dropped connection, a service exception). */
  datatype StreamItem = Event(event: ResultStreamEvent) | ReadError

  /** The page's two state values. */
  datatype Display = Display(partial: Option<string>, final: Option<string>)

  /** The display state and whether processing has stopped on an exception. */
  datatype Progress = Progress(display: Display, stopped: bool)

  const Initial := Display(None, None)

  predicate AtMostOne(d: Display) {
    !(d.partial.Some? && d.final.Some?)
  }

  /** `Alternatives?.[0].Transcript`: absent alternatives give `undefined`,
      an empty array makes the property read on `undefined` throw. */
  function FirstTranscript(r: TranscriptResult): (t: Result<Option<string>, string>)
    ensures r.alternatives.None? ==> t == Success(None)
    ensures t.Failure? <==> r.alternatives == Some([])
    ensures r.alternatives.Some? && |r.alternatives.value| > 0 ==> t == Success(r.alternatives.value[0].transcript)
  {
    match r.alternatives
    case None => Success(None)
    case Some(alts) =>
      if |alts| == 0 then Failure("TypeError: cannot read properties of undefined (reading 'Transcript')")
      else Success(alts[0].transcript)
  }

  /** The display a result produces when it does not throw; it does not
      depend on the display before it. */
  function Shown(r: TranscriptResult): (d: Display)
    requires FirstTranscript(r).Success?
    ensures AtMostOne(d)
    ensures r.isPartial ==> d.partial == FirstTranscript(r).value && d.final.None?
    ensures !r.isPartial ==> d.partial.None? && d.final == FirstTranscript(r).value
  {
    if r.isPartial then Display(FirstTranscript(r).value, None)
    else Display(None, FirstTranscript(r).value)
  }

  /** One result. A partial result replaces `partial` and clears `final`; a
      final one clears `partial` and replaces `final`. When reading the
      transcript throws, the setters that already ran stay applied: none in
      the partial branch, `setPartial(undefined)` in the final branch. */
  function ApplyResult(d: Display, r: TranscriptResult): (p: Progress)
    ensures !p.stopped <==> FirstTranscript(r).Success?
    ensures !p.stopped ==> p.display == Shown(r)
    ensures p.stopped && r.isPartial ==> p.display == d
    ensures p.stopped && !r.isPartial ==> p.display == Display(None, d.final)
    ensures AtMostOne(d) ==> AtMostOne(p.display)
  {
    match FirstTranscript(r)
    case Failure(_) =>
      if r.isPartial then Progress(d, true) else Progress(d.(partial := None), true)
    case Success(text) =>
      if r.isPartial then Progress(Display(text, None), false)
      else Progress(Display(None, text), false)
  }

  /** The results of one event, in order, stopping at the first throw. */
  function ApplyResults(d: Display, rs: seq<TranscriptResult>): (p: Progress)
    ensures AtMostOne(d) ==> AtMostOne(p.display)
    ensures |rs| == 0 ==> p == Progress(d, false)
    decreases |rs|
  {
    if |rs| == 0 then Progress(d, false)
    else
      var first := ApplyResult(d, rs[0]);
      if first.stopped then first else ApplyResults(first.display, rs[1..])
  }

  /** Whether every link of `TranscriptEvent.Transcript.Results` is present. */
  predicate HasResults(e: ResultStreamEvent) {
    && e.transcriptEvent.Some?
    && e.transcriptEvent.value.transcript.Some?
    && e.transcriptEvent.value.transcript.value.results.Some?
  }

  /** `event.TranscriptEvent?.Transcript?.Results || []`. */
  function ResultsOf(e: ResultStreamEvent): (rs: seq<TranscriptResult>)
    ensures !HasResults(e) ==> rs == []
    ensures HasResults(e) ==> rs == e.transcriptEvent.value.transcript.value.results.value
  {
    match e.transcriptEvent
    case None => []
    case Some(te) =>
      match te.transcript
      case None => []
      case Some(t) =>
        match t.results
        case None => []
        case Some(rs) => rs
  }

  /** The consuming `for await` loop: each event's results in turn, ending at
      the end of the stream or at the first exception, which the surrounding
      `catch` swallows. */
  function Consume(d: Display, items: seq<StreamItem>): (p: Progress)
    ensures AtMostOne(d) ==> AtMostOne(p.display)
    decreases |items|
  {
    if |items| == 0 then Progress(d, false)
    else match items[0]
      case ReadError => Progress(d, true)
      case Event(e) =>
        var first := ApplyResults(d, ResultsOf(e));
        if first.stopped then first else Consume(first.display, items[1..])
  }

  /** `transcribe` after the request has been sent: no result stream leaves
      the display as it is; otherwise the stream is consumed. */
  function Transcribe(d: Display, stream: Option<seq<StreamItem>>): (d': Display)
    ensures stream.None? ==> d' == d
    ensures stream.Some? ==> d' == Consume(d, stream.value).display
    ensures AtMostOne(d) ==> AtMostOne(d')
  {
    match stream
    case None => d
    case Some(items) => Consume(d, items).display
  }

  /** An event missing `TranscriptEvent`, `Transcript` or `Results`, or one
      with no results, changes nothing and does not stop the loop. */
  lemma MissingFieldsAreNoOps(d: Display, e: ResultStreamEvent, rest: seq<StreamItem>)
    requires !HasResults(e) || e.transcriptEvent.value.transcript.value.results.value == []
    ensures Consume(d, [Event(e)] + rest) == Consume(d, rest)
  {
    assert ([Event(e)] + rest)[1..] == rest;
  }

  /** Results processed in two runs give the same outcome as one run over
      both, as long as the first run did not stop. */
  lemma {:induction false} ApplyResultsAppend(d: Display, a: seq<TranscriptResult>, b: seq<TranscriptResult>)
    ensures var pa := ApplyResults(d, a);
      ApplyResults(d, a + b) == if pa.stopped then pa else ApplyResults(pa.display, b)
    decreases |a|
  {
    if |a| == 0 {
      assert a + b == b;
    } else {
      assert (a + b)[0] == a[0];
      assert (a + b)[1..] == a[1..] + b;
      var first := ApplyResult(d, a[0]);
      if !first.stopped {
        ApplyResultsAppend(first.display, a[1..], b);
      }
    }
  }

  /** Last writer wins: after results that all go through, the display is the
      one the last of them shows, whatever it was before. */
  lemma {:induction false} LastResultWins(d: Display, rs: seq<TranscriptResult>)
    requires 0 < |rs|
    requires !ApplyResults(d, rs).stopped
    ensures FirstTranscript(rs[|rs| - 1]).Success?
    ensures ApplyResults(d, rs).display == Shown(rs[|rs| - 1])
    decreases |rs|
  {
    var first := ApplyResult(d, rs[0]);
    if |rs| > 1 {
      assert rs[1..][|rs[1..]| - 1] == rs[|rs| - 1];
      LastResultWins(first.display, rs[1..]);
    }
  }

  /** Every result of a stream prefix without read errors, in order. */
  function AllResults(items: seq<StreamItem>): (rs: seq<TranscriptResult>)
    requires forall i :: 0 <= i < |items| ==> items[i].Event?
    decreases |items|
  {
    if |items| == 0 then [] else ResultsOf(items[0].event) + AllResults(items[1..])
  }

  /** Without read errors, consuming the stream event by event is one fold
      over all results of all events. */
  lemma {:induction false} ConsumeIsFoldOverResults(d: Display, items: seq<StreamItem>)
    requires forall i :: 0 <= i < |items| ==> items[i].Event?
    ensures Consume(d, items) == ApplyResults(d, AllResults(items))
    decreases |items|
  {
    if |items| > 0 {
      var rs := ResultsOf(items[0].event);
      ApplyResultsAppend(d, rs, AllResults(items[1..]));
      var first := ApplyResults(d, rs);
      if !first.stopped {
        ConsumeIsFoldOverResults(first.display, items[1..]);
      }
    }
  }

  /** Last writer wins across events: if the stream reads without error and
      no result throws, the display is the one the last result of the last
      event with results shows, whatever the display was before. */
  lemma StreamLastResultWins(d: Display, items: seq<StreamItem>)
    requires forall i :: 0 <= i < |items| ==> items[i].Event?
    requires 0 < |AllResults(items)|
    requires !Consume(d, items).stopped
    ensures var rs := AllResults(items); FirstTranscript(rs[|rs| - 1]).Success?
    ensures var rs := AllResults(items);
      Consume(d, items).display == Shown(rs[|rs| - 1])
  {
    ConsumeIsFoldOverResults(d, items);
    LastResultWins(d, AllResults(items));
  }

  /** Consuming two consecutive stretches of the stream is consuming the
      first and then, unless it stopped, the second. */
  lemma {:induction false} ConsumeAppend(d: Display, a: seq<StreamItem>, b: seq<StreamItem>)
    ensures var pa := Consume(d, a);
      Consume(d, a + b) == if pa.stopped then pa else Consume(pa.display, b)
    decreases |a|
  {
    if |a| == 0 {
      assert a + b == b;
    } else {
      assert (a + b)[0] == a[0];
      assert (a + b)[1..] == a[1..] + b;
      if a[0].Event? {
        var first := ApplyResults(d, ResultsOf(a[0].event));
        if !first.stopped {
          ConsumeAppend(first.display, a[1..], b);
        }
      }
    }
  }

  /** An exception ends the session's inbound processing: nothing after the
      failing read is looked at, and the display stays as it was before it. */
  lemma ReadErrorStopsProcessing(d: Display, before: seq<StreamItem>, after: seq<StreamItem>)
    requires !Consume(d, before).stopped
    ensures Consume(d, before + [ReadError] + after) == Progress(Consume(d, before).display, true)
  {
    ConsumeAppend(d, before, [ReadError] + after);
    assert before + [ReadError] + after == before + ([ReadError] + after);
  }

  /** The same for a result whose first alternative cannot be read: the
      events after it are ignored, whatever they hold. */
  lemma StoppedIgnoresTheRest(d: Display, before: seq<StreamItem>, after: seq<StreamItem>)
    requires Consume(d, before).stopped
    ensures Consume(d, before + after) == Consume(d, before)
  {
    ConsumeAppend(d, before, after);
  }

  function PartialEvent(text: string): ResultStreamEvent {
    ResultStreamEvent(Some(TranscriptEvent(Some(TranscriptBody(Some([
      TranscriptResult(true, Some([Alternative(Some(text))]))]))))))
  }

  function FinalEvent(text: string): ResultStreamEvent {
    ResultStreamEvent(Some(TranscriptEvent(Some(TranscriptBody(Some([
      TranscriptResult(false, Some([Alternative(Some(text))]))]))))))
  }

  /** Two partial results and then a final one: each partial replaces the
      previous one, and the final clears the partial. */
  lemma GreetingExample()
    ensures Consume(Initial, [Event(PartialEvent("こ"))]).display == Display(Some("こ"), None)
    ensures Consume(Initial, [Event(PartialEvent("こ")), Event(PartialEvent("こん"))]).display
         == Display(Some("こん"), None)
    ensures Consume(Initial, [Event(PartialEvent("こ")), Event(PartialEvent("こん")), Event(FinalEvent("こんにちは"))]).display
         == Display(None, Some("こんにちは"))
  {
  }
}
