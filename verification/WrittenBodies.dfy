/** Bodies as a server writes them, one payload a frame, and what both clients read in them. The other modules speak
  * of what the parsers receive; here that is tied to the text on the wire. */
module WrittenBodies {
  import opened SseFraming
  import opened StreamDriver
  import opened Text
  import opened Utf8
  import opened Wrappers
  import Chat = ChatCompletionParser
  import Codex = CodexStreamParser
  import opened StreamedCalls

  /** A payload and the delimiter behind its frame. */
  datatype Frame = Frame(payload: string, end: string) {
    predicate Writable() {
      && Trimmed(payload) && '\n' !in payload && payload != ""
      && (end == "\n\n" || end == "\r\n\r\n")
    }

    function Text(): string {
      "data: " + payload
    }
  }

  predicate AllWritable(frames: seq<Frame>) {
    forall i | 0 <= i < |frames| :: frames[i].Writable()
  }

  function WrittenText(frames: seq<Frame>): string {
    if frames == [] then "" else frames[0].Text() + frames[0].end + WrittenText(frames[1..])
  }

  function FrameTexts(frames: seq<Frame>): seq<string> {
    seq(|frames|, i requires 0 <= i < |frames| => frames[i].Text())
  }

  /** The body that carries the frames in one chunk. */
  ghost function Body(frames: seq<Frame>): seq<Read> {
    [Chunk(Encode(WrittenText(frames)))]
  }

  // ---------- Cutting ----------

  lemma FrameIsCut(frame: Frame, rest: string)
    requires frame.Writable()
    ensures NextFrameBoundary(frame.Text() + frame.end + rest) == Some((|frame.Text()|, |frame.end|))
  {
    var i, text := |frame.Text()|, frame.Text() + frame.end + rest;
    assert text[i..i + |frame.end|] == frame.end;
    assert forall k | 0 <= k < i :: text[k] == frame.Text()[k];
    assert text[i] == frame.end[0];
    LastCharacter(frame);
    forall j: nat, l: nat | j < i ensures !Delimiter(text, j, l) {
      DelimiterCharacters(text, j);
      assert text[j] == frame.Text()[j];
      assert j + 1 < i ==> text[j + 1] == frame.Text()[j + 1];
    }
    BoundaryIsEarliestDelimiter(text, i, |frame.end|);
  }

  lemma LastCharacter(frame: Frame)
    requires frame.Writable()
    ensures frame.Text()[|frame.Text()| - 1] != '\r' && '\n' !in frame.Text()
  {
    assert IsWhitespace('\r');
  }

  lemma {:induction false} FramesAreCut(frames: seq<Frame>)
    requires AllWritable(frames)
    ensures FramesOf(WrittenText(frames)) == FrameTexts(frames) && TailOf(WrittenText(frames)) == ""
  {
    if frames == [] {
      NothingToCut();
    } else {
      var frame, rest := frames[0], WrittenText(frames[1..]);
      assert frame.Writable() && frame.end != "";
      hide NextFrameBoundary, Frame.Writable, FramesOf, TailOf, Frame.Text, FrameTexts;
      FrameIsCut(frame, rest);
      FramesAreCut(frames[1..]);
      FirstIsCut(frame.Text(), frame.end, rest);
      FirstText(frames);
    }
  }

  lemma FirstText(frames: seq<Frame>)
    requires frames != []
    ensures FrameTexts(frames) == [frames[0].Text()] + FrameTexts(frames[1..])
  {
    hide Frame.Text;
  }

  lemma FirstIsCut(first: string, end: string, rest: string)
    requires NextFrameBoundary(first + end + rest) == Some((|first|, |end|)) && end != ""
    ensures FramesOf(first + end + rest) == [first] + FramesOf(rest)
    ensures TailOf(first + end + rest) == TailOf(rest)
  {
    hide NextFrameBoundary;
    var text := first + end + rest;
    assert text[..|first|] == first;
    assert text[|first| + |end|..] == rest;
  }

  lemma NothingToCut()
    ensures NextFrameBoundary("").None?
  {
  }

  lemma FramesAreHanded(frames: seq<Frame>)
    requires AllWritable(frames)
    ensures Delivered(Body(frames), []) == (WrittenText(frames), Clean)
    ensures FramesHanded(WrittenText(frames), Clean) == FrameTexts(frames)
  {
    var text := WrittenText(frames);
    var bytes := Encode(text);
    FramesAreCut(frames);
    EncodeThenDecode(text, []);
    NothingToDecode();
    assert Trim("") == "";
    assert bytes + [] == bytes && text + "" == text && [] + bytes == bytes;
    assert Acceptable(bytes);
    FirstBytes(Body(frames));
    assert Body(frames)[1..] == [] && Bytes([]) == [] && !Breaks([]);
    hide FramesOf, TailOf, WrittenText, Trim, Decode, Encode, Rest, Acceptable, Delivered;
    DeliveredWhole(Body(frames), []);
    assert FrameTexts(frames) + [] == FrameTexts(frames);
  }

  // ---------- Reading ----------

  /** A frame has one payload, itself. */
  lemma PayloadIsRead(frame: Frame)
    requires frame.Writable()
    ensures DataLines(frame.Text()) == [frame.payload] && Trim(frame.payload) == frame.payload
  {
    var lines := [(LF, Data(frame.payload, true))];
    LastCharacter(frame);
    PayloadsRead(lines);
    assert lines[1..] == [];
    assert Payloads(lines) == [frame.payload] + Payloads(lines[1..]);
    TrimOfBlanks("", frame.payload, "");
    assert "" + frame.payload + "" == frame.payload;
  }

  predicate Finishes(chunk: Chat.StreamChunk) {
    exists choice <- chunk.choices :: choice.finished
  }

  /** The chunks of a written body: one for each payload, up to `[DONE]`, the first payload that does not decode, or
    * the first chunk that finishes a choice, which still counts. */
  function ChunksIn(decode: Chat.Decode, frames: seq<Frame>): seq<Chat.StreamChunk> {
    if frames == [] || frames[0].payload == "[DONE]" || decode(frames[0].payload).None? then []
    else
      var chunk := decode(frames[0].payload).value;
      [chunk] + if Finishes(chunk) then [] else ChunksIn(decode, frames[1..])
  }

  /** A payload that does not decode comes before anything that ends the stream. */
  predicate Garbled(decode: Chat.Decode, frames: seq<Frame>) {
    frames != [] && frames[0].payload != "[DONE]"
    && (decode(frames[0].payload).None?
        || (!Finishes(decode(frames[0].payload).value) && Garbled(decode, frames[1..])))
  }

  lemma {:induction false} ChoicesFinish(s: Chat.ParserState, choices: seq<Chat.Choice>)
    ensures Chat.WithChoices(s, choices).done <==> s.done || exists choice <- choices :: choice.finished
    decreases |choices|
  {
    if choices != [] {
      var t := Chat.WithChoice(s, choices[0]);
      DeltaKeepsDone(Chat.WithUsage(s, choices[0].usage), choices[0].delta);
      ChoicesFinish(t, choices[1..]);
      hide Chat.WithDelta;
      assert forall choice <- choices :: choice == choices[0] || choice in choices[1..];
    }
  }

  lemma {:induction false} ReasoningKeepsDone(s: Chat.ParserState, fields: seq<(string, string)>)
    ensures Chat.WithReasoning(s, fields).done == s.done
    decreases |fields|
  {
    if fields != [] {
      var (field, text) := fields[0];
      ReasoningKeepsDone(
        s.(reasoningField := if s.reasoningField.None? then Some(field) else s.reasoningField,
           reasoningText := s.reasoningText + text,
           sent := s.sent + [Chat.ReasoningDelta(text)]),
        fields[1..]);
    }
  }

  lemma DeltaKeepsDone(s: Chat.ParserState, delta: Chat.Delta)
    ensures Chat.WithDelta(s, delta).done == s.done
  {
    ReasoningKeepsDone(s, Chat.ReasoningFields(delta));
    hide Chat.WithReasoning, Chat.ReasoningFields, Chat.WithToolCalls;
  }

  lemma ChatFrameRead(decode: Chat.Decode, s: Chat.ParserState, frame: Frame)
    requires frame.Writable() && !s.done
    ensures var step, value := Chat.FrameStep(decode)(s, frame.Text()), decode(frame.payload);
            if frame.payload == "[DONE]" then step.Finished? && Chat.ChunksOf(decode, DataLines(frame.Text())) == []
            else if value.None? then step.Failed? && Chat.ChunksOf(decode, DataLines(frame.Text())) == []
            else
              && Chat.ChunksOf(decode, DataLines(frame.Text())) == [value.value]
              && (if Finishes(value.value) then step.Finished? else step.Continue? && !step.state.done)
  {
    PayloadIsRead(frame);
    var payload := frame.payload;
    assert [payload][1..] == [];
    if payload != "[DONE]" && decode(payload).Some? {
      var chunk := decode(payload).value;
      ChoicesFinish(Chat.WithUsage(s, chunk.usage), chunk.choices);
      hide DataLines, Trim, Chat.WithChoices, Frame.Writable, Frame.Text;
      assert Chat.DataStep(decode, s, [payload]) == Chat.DataStep(decode, Chat.WithChunk(s, chunk), []);
      assert Chat.ChunksOf(decode, [payload]) == [chunk] + Chat.ChunksOf(decode, []);
    }
  }

  lemma {:induction false} ChatFramesRead(decode: Chat.Decode, s: Chat.ParserState, frames: seq<Frame>)
    requires AllWritable(frames) && !s.done
    ensures Chat.ChunksUsed(decode, s, FrameTexts(frames)) == ChunksIn(decode, frames)
    ensures ParseFrames(Chat.FrameStep(decode), s, FrameTexts(frames)).Failed? <==> Garbled(decode, frames)
    decreases |frames|
  {
    if frames != [] {
      var texts := FrameTexts(frames);
      assert texts[1..] == FrameTexts(frames[1..]) && texts[0] == frames[0].Text();
      ChatFrameRead(decode, s, frames[0]);
      var step := Chat.FrameStep(decode)(s, texts[0]);
      hide DataLines, Finishes, Chat.FrameStep, Chat.ChunksOf, Frame.Writable, Frame.Text, FrameTexts;
      if step.Continue? {
        ChatFramesRead(decode, step.state, frames[1..]);
      }
    }
  }

  /** What a chat call receives from a body that a server wrote is what the server wrote, up to where the stream
    * ends; and the call is refused for a frame exactly when a payload is garbled before that. */
  lemma ChatReadsWhatIsWritten(decode: Chat.Decode, arguments: Chat.DecodeArguments, frames: seq<Frame>)
    requires AllWritable(frames)
    ensures PiecesReceived(decode, Body(frames)) == Chat.PiecesOf(ChunksIn(decode, frames))
    ensures ChatCall(decode, arguments, Body(frames)).result == Err(FrameRefused) <==> Garbled(decode, frames)
  {
    FramesAreHanded(frames);
    assert !Chat.INITIAL.done;
    hide Delivered, FramesHanded, Body, WrittenText, FrameTexts, Reference, Chat.PiecesOf, ChunksIn, Garbled;
    hide Chat.FrameStep, Chat.ChunksUsed, Chat.FinishedTurn;
    ChatFramesRead(decode, Chat.INITIAL, frames);
    ReferenceParsesFrames(Chat.FrameStep(decode), Chat.INITIAL, WrittenText(frames), Clean);
  }

  /** A chat call on a written body succeeds exactly when no payload is garbled before the stream ends and every
    * tool call told was named and has arguments that decode. */
  lemma ChatCallSucceedsIff(decode: Chat.Decode, arguments: Chat.DecodeArguments, frames: seq<Frame>)
    requires AllWritable(frames)
    ensures var deltas := Chat.CallDeltas(Chat.PiecesOf(ChunksIn(decode, frames)));
            ChatCall(decode, arguments, Body(frames)).result.Ok? <==>
            && !Garbled(decode, frames)
            && forall k: nat | Chat.Only(deltas, k) != [] ::
                 !Chat.Unfinishable(arguments, Chat.Summary(Chat.Only(deltas, k)))
  {
    FramesAreHanded(frames);
    var text := WrittenText(frames);
    var s := Reference(Chat.FrameStep(decode), Chat.INITIAL, text, Clean).state;
    ChatReadsWhatIsWritten(decode, arguments, frames);
    hide Delivered, FramesHanded, Body, WrittenText, FrameTexts, Reference, ChunksIn, Garbled;
    hide Chat.FrameStep, Chat.ChunksUsed, Chat.FinishedTurn, Chat.PiecesOf, Chat.CallDeltas, Chat.Assemble, Chat.Only;
    hide Chat.Summary, Chat.Unfinishable, Chat.Contents, Chat.Reasonings, Chat.FirstField, Chat.LastUsage, Chat.Events;
    Chat.StreamSummary(decode, text, Clean);
    Chat.RefusedIff(arguments, s, Chat.CallDeltas(Chat.PiecesOf(ChunksIn(decode, frames))));
    ReferenceParsesFrames(Chat.FrameStep(decode), Chat.INITIAL, text, Clean);
  }

  /** The events of a written body: one for each payload, up to `[DONE]`, the first payload that does not decode, or the
    * first event that completes or fails the response, which still counts. */
  function EventsIn(decode: Codex.Decode, frames: seq<Frame>): seq<Codex.Event> {
    if frames == [] || frames[0].payload == "[DONE]" || decode(frames[0].payload).None? then []
    else
      var event := Codex.EventOf(decode(frames[0].payload).value);
      [event] + if event.Response? || event.Failure? then [] else EventsIn(decode, frames[1..])
  }

  /** A payload that does not decode, or an event that fails, comes before anything that ends the stream. */
  predicate Broken(decode: Codex.Decode, read: Codex.ReadResponse, frames: seq<Frame>) {
    frames != [] && frames[0].payload != "[DONE]"
    && (decode(frames[0].payload).None?
        || var event := Codex.EventOf(decode(frames[0].payload).value);
           Codex.Fails(read, event) || (!event.Response? && Broken(decode, read, frames[1..])))
  }

  lemma CodexFrameRead(decode: Codex.Decode, read: Codex.ReadResponse, s: Codex.ParserState, frame: Frame)
    requires frame.Writable() && !s.done
    ensures var step, value := Codex.FrameStep(decode, read)(s, frame.Text()), decode(frame.payload);
            var events := Codex.EventsOf(decode, DataLines(frame.Text()));
            if frame.payload == "[DONE]" then step.Finished? && events == []
            else if value.None? then step.Failed? && events == []
            else
              var event := Codex.EventOf(value.value);
              && events == [event]
              && (if Codex.Fails(read, event) then step.Failed?
                  else if event.Response? then step.Finished?
                  else step.Continue? && !step.state.done)
  {
    PayloadIsRead(frame);
    var payload := frame.payload;
    assert [payload][1..] == [];
    hide DataLines, Trim, Codex.EventOf, Frame.Writable, Frame.Text;
    assert Codex.EventsOf(decode, []) == [];
    if payload == "[DONE]" {
      assert Codex.DataStep(decode, read, s, [payload]) == Codex.DataStep(decode, read, s.(done := true), []);
    } else if decode(payload).Some? {
      var event := Codex.EventOf(decode(payload).value);
      var next := Codex.WithEvent(read, s, event);
      if next.Some? {
        assert Codex.DataStep(decode, read, s, [payload]) == Codex.DataStep(decode, read, next.value, []);
      }
    }
  }

  lemma {:induction false} CodexFramesRead(
    decode: Codex.Decode, read: Codex.ReadResponse, s: Codex.ParserState, frames: seq<Frame>)
    requires AllWritable(frames) && !s.done
    ensures Codex.EventsRead(decode, read, s, FrameTexts(frames)) == EventsIn(decode, frames)
    ensures ParseFrames(Codex.FrameStep(decode, read), s, FrameTexts(frames)).Failed? <==> Broken(decode, read, frames)
    decreases |frames|
  {
    if frames != [] {
      var texts := FrameTexts(frames);
      assert texts[1..] == FrameTexts(frames[1..]) && texts[0] == frames[0].Text();
      CodexFrameRead(decode, read, s, frames[0]);
      var step := Codex.FrameStep(decode, read)(s, texts[0]);
      hide DataLines, Codex.FrameStep, Codex.EventsOf, Codex.EventOf, Frame.Writable, Frame.Text, FrameTexts;
      if step.Continue? {
        CodexFramesRead(decode, read, step.state, frames[1..]);
      }
    }
  }

  /** What a Codex call reads in a body that a server wrote is what the server wrote: its sink is told the deltas of
    * the good events, a successful turn is spoken by them and the last response, and the call is refused for a
    * frame exactly when a payload is broken before the stream ends. */
  lemma CodexReadsWhatIsWritten(decode: Codex.Decode, read: Codex.ReadResponse, frames: seq<Frame>)
    requires AllWritable(frames)
    ensures var call, events := CodexCall(decode, read, Body(frames)), Codex.Good(read, EventsIn(decode, frames));
            && call.sent == Codex.Told(events)
            && (call.result == Err(FrameRefused) <==> Broken(decode, read, frames))
            && (call.result.Ok? <==> !Broken(decode, read, frames))
            && (call.result.Ok? ==> Codex.SpokenBy(call.result.value, events, Codex.LastResponse(read, events, None)))
  {
    FramesAreHanded(frames);
    assert !Codex.INITIAL.done;
    var text := WrittenText(frames);
    hide Delivered, FramesHanded, Body, WrittenText, FrameTexts, Reference, EventsIn, Broken;
    hide Codex.FrameStep, Codex.EventsRead, Codex.FinishedCompletion, Codex.Good, Codex.Told, Codex.SpokenBy;
    hide Codex.LastResponse;
    CodexFramesRead(decode, read, Codex.INITIAL, frames);
    ReferenceParsesFrames(Codex.FrameStep(decode, read), Codex.INITIAL, text, Clean);
    Codex.StreamSummary(decode, read, text, Clean);
  }
}
