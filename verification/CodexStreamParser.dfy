/** The stateful parser of streamed responses: text and reasoning deltas go to the sink as they arrive, and a
  * completed response, when one comes, is amended with what was streamed. JSON decoding and the reading of a
  * completed response are parameters. */
module CodexStreamParser {
  import opened JsonValue
  import opened SseFraming
  import opened StreamDriver
  import opened Text
  import opened Wrappers
  import Chat = ChatCompletionParser

  datatype Completion = Completion(
    text: Option<string>,
    toolCalls: seq<Chat.ToolCall>,
    reasoning: seq<string>,
    tokenUsage: Option<Chat.TokenUsage>)

  type Decode = string -> Option<Json>
  type ReadResponse = Json -> Option<Completion>

  /** The fields of the parser together with the events its sink has received. */
  datatype ParserState = ParserState(
    assistantText: string,
    reasoningText: string,
    completed: Option<Completion>,
    done: bool,
    sent: seq<Chat.StreamEvent>)

  const INITIAL := ParserState("", "", None, false, [])

  // ---------- One event ----------

  /** What the decoded value of a data line asks for. */
  datatype Event =
    | TextDelta(text: string)
    | ReasoningDelta(text: string)
    | Response(value: Option<Json>)
    | Failure
    | Ignored

  function Field(value: Json, key: string): Option<Json> {
    if value.Object? && key in value.fields then Some(value.fields[key]) else None
  }

  function StringField(value: Json, key: string): Option<string> {
    match Field(value, key)
    case Some(Str(text)) => Some(text)
    case _ => None
  }

  const TEXT_DELTAS := {"response.output_text.delta", "response.text.delta"}
  const REASONING_DELTAS :=
    {"response.reasoning.delta", "response.reasoning_text.delta", "response.reasoning_summary_text.delta"}
  const FAILURES := {"response.failed", "error"}

  function EventOf(value: Json): Event {
    var kind, delta := StringField(value, "type"), StringField(value, "delta").GetOr("");
    if kind.None? then Ignored
    else if kind.value in TEXT_DELTAS then TextDelta(delta)
    else if kind.value in REASONING_DELTAS then ReasoningDelta(delta)
    else if kind.value == "response.completed" then Response(Field(value, "response"))
    else if kind.value in FAILURES then Failure
    else Ignored
  }

  /** What each kind of event is read as; every other value is ignored. */
  lemma EventKinds(fields: map<string, Json>, kind: string)
    requires "type" in fields && fields["type"] == Str(kind)
    ensures var delta := if "delta" in fields && fields["delta"].Str? then fields["delta"].text else "";
            var event := EventOf(Object(fields));
            && (event == TextDelta(delta) <==>
                kind == "response.output_text.delta" || kind == "response.text.delta")
            && (event == ReasoningDelta(delta) <==>
                kind == "response.reasoning.delta" || kind == "response.reasoning_text.delta"
                || kind == "response.reasoning_summary_text.delta")
            && (kind == "response.completed" <==> event.Response?)
            && (event.Response? ==> event.value == if "response" in fields then Some(fields["response"]) else None)
            && (kind == "response.failed" || kind == "error" <==> event == Failure)
  {
    assert |"response.output_text.delta"| == 26 && |"response.text.delta"| == 19;
    assert |"response.reasoning.delta"| == 24 && |"response.reasoning_text.delta"| == 29;
    assert |"response.reasoning_summary_text.delta"| == 37 && |"response.completed"| == 18;
    assert |"response.failed"| == 15 && |"error"| == 5;
  }

  lemma OtherValuesAreIgnored(value: Json)
    requires !(value.Object? && "type" in value.fields && value.fields["type"].Str?)
    ensures EventOf(value) == Ignored
  {
  }

  /** `None` when the event fails the stream. */
  function WithEvent(read: ReadResponse, s: ParserState, event: Event): Option<ParserState> {
    match event
    case TextDelta(text) =>
      if text == "" then Some(s)
      else Some(s.(assistantText := s.assistantText + text, sent := s.sent + [Chat.AssistantTextDelta(text)]))
    case ReasoningDelta(text) =>
      if text == "" then Some(s)
      else Some(s.(reasoningText := s.reasoningText + text, sent := s.sent + [Chat.ReasoningDelta(text)]))
    case Response(value) =>
      var completion := if value.Some? then read(value.value) else None;
      if completion.None? then None else Some(s.(completed := completion, done := true))
    case Failure => None
    case Ignored => Some(s)
  }

  /** Unlike a chat completion, a frame is read to its end even after `[DONE]`. */
  function DataStep(decode: Decode, read: ReadResponse, s: ParserState, lines: seq<string>): Step<ParserState>
    decreases |lines|
  {
    if lines == [] then (if s.done then Finished(s) else Continue(s))
    else
      var data := Trim(lines[0]);
      if data == "" then DataStep(decode, read, s, lines[1..])
      else if data == "[DONE]" then DataStep(decode, read, s.(done := true), lines[1..])
      else match decode(data)
        case None => Failed(s)
        case Some(value) =>
          match WithEvent(read, s, EventOf(value))
          case None => Failed(s)
          case Some(next) => DataStep(decode, read, next, lines[1..])
  }

  function FrameStep(decode: Decode, read: ReadResponse): Parser<ParserState> {
    (s: ParserState, frame: string) => DataStep(decode, read, s, DataLines(frame))
  }

  // ---------- Finishing ----------

  function FinishedCompletion(s: ParserState): Completion {
    match s.completed
    case Some(completion) =>
      completion.(
        text := if completion.text.GetOr("") == "" && s.assistantText != "" then Some(s.assistantText)
                else completion.text,
        reasoning := if completion.reasoning == [] && s.reasoningText != "" then [s.reasoningText]
                     else completion.reasoning)
    case None =>
      Completion(
        if s.assistantText == "" then None else Some(s.assistantText),
        [],
        if s.reasoningText == "" then [] else [s.reasoningText],
        None)
  }

  // ---------- Whole streams ----------

  /** What the parser holds is what the sink has been sent, and it is done once it holds a completed response. */
  predicate Matches(s: ParserState) {
    && s.assistantText == Chat.AssistantTexts(s.sent)
    && s.reasoningText == Chat.ReasoningTexts(s.sent)
    && (s.completed.Some? ==> s.done)
  }

  /** The events of a frame's data lines, up to the first line that does not decode. */
  function EventsOf(decode: Decode, lines: seq<string>): seq<Event> {
    if lines == [] then []
    else
      var data := Trim(lines[0]);
      if data == "" || data == "[DONE]" then EventsOf(decode, lines[1..])
      else if decode(data).None? then []
      else [EventOf(decode(data).value)] + EventsOf(decode, lines[1..])
  }

  /** The events read from a list of frames before the parser stops. */
  function EventsRead(decode: Decode, read: ReadResponse, s: ParserState, frames: seq<string>): seq<Event>
    decreases |frames|
  {
    if frames == [] then []
    else
      var step := FrameStep(decode, read)(s, frames[0]);
      EventsOf(decode, DataLines(frames[0]))
      + if step.Continue? then EventsRead(decode, read, step.state, frames[1..]) else []
  }

  predicate Fails(read: ReadResponse, event: Event) {
    event.Failure? || (event.Response? && (event.value.None? || read(event.value.value).None?))
  }

  /** The events before the first that fails the stream. */
  function Good(read: ReadResponse, events: seq<Event>): seq<Event> {
    if events == [] || Fails(read, events[0]) then [] else [events[0]] + Good(read, events[1..])
  }

  function Texts(events: seq<Event>): string {
    if events == [] then "" else (if events[0].TextDelta? then events[0].text else "") + Texts(events[1..])
  }

  function Reasonings(events: seq<Event>): string {
    if events == [] then "" else (if events[0].ReasoningDelta? then events[0].text else "") + Reasonings(events[1..])
  }

  /** What the sink must be told. */
  function Told(events: seq<Event>): seq<Chat.StreamEvent> {
    if events == [] then [] else ToldOf(events[0]) + Told(events[1..])
  }

  function ToldOf(event: Event): seq<Chat.StreamEvent> {
    match event
    case TextDelta(text) => if text == "" then [] else [Chat.AssistantTextDelta(text)]
    case ReasoningDelta(text) => if text == "" then [] else [Chat.ReasoningDelta(text)]
    case _ => []
  }

  function LastResponse(read: ReadResponse, events: seq<Event>, before: Option<Completion>): Option<Completion>
    decreases |events|
  {
    if events == [] then before
    else
      LastResponse(read, events[1..],
                   if events[0].Response? && events[0].value.Some? then read(events[0].value.value) else before)
  }

  /** `t` is `s` with the good events of `events` added. */
  predicate Absorbed(read: ReadResponse, s: ParserState, events: seq<Event>, t: ParserState) {
    && t.assistantText == s.assistantText + Texts(Good(read, events))
    && t.reasoningText == s.reasoningText + Reasonings(Good(read, events))
    && t.completed == LastResponse(read, Good(read, events), s.completed)
    && t.sent == s.sent + Told(Good(read, events))
    && Matches(t)
  }

  lemma EventAbsorbed(read: ReadResponse, s: ParserState, event: Event)
    requires Matches(s) && !Fails(read, event)
    ensures WithEvent(read, s, event).Some?
    ensures var t := WithEvent(read, s, event).value;
            && t.assistantText == s.assistantText + (if event.TextDelta? then event.text else "")
            && t.reasoningText == s.reasoningText + (if event.ReasoningDelta? then event.text else "")
            && t.completed == (if event.Response? && event.value.Some? then read(event.value.value) else s.completed)
            && t.sent == s.sent + ToldOf(event)
            && Matches(t)
  {
    assert s.sent + [] == s.sent;
    if event.TextDelta? {
      Chat.EventTextsAppend(s.sent, Chat.AssistantTextDelta(event.text));
    } else if event.ReasoningDelta? {
      Chat.EventTextsAppend(s.sent, Chat.ReasoningDelta(event.text));
    }
  }

  lemma GoodFirst(read: ReadResponse, event: Event, rest: seq<Event>)
    ensures Good(read, [event] + rest) == if Fails(read, event) then [] else [event] + Good(read, rest)
  {
    assert ([event] + rest)[1..] == rest;
  }

  lemma AbsorbedNothing(read: ReadResponse, s: ParserState)
    requires Matches(s)
    ensures Absorbed(read, s, [], s) && Matches(s.(done := true))
  {
    assert s.assistantText + "" == s.assistantText && s.reasoningText + "" == s.reasoningText && s.sent + [] == s.sent;
  }

  lemma AbsorbedFailure(read: ReadResponse, s: ParserState, event: Event, rest: seq<Event>)
    requires Matches(s) && Fails(read, event)
    ensures Absorbed(read, s, [event] + rest, s) && WithEvent(read, s, event).None?
  {
    GoodFirst(read, event, rest);
    AbsorbedNothing(read, s);
  }

  lemma AbsorbedFirst(read: ReadResponse, s: ParserState, event: Event, rest: seq<Event>, u: ParserState)
    requires Matches(s) && !Fails(read, event)
    requires WithEvent(read, s, event).Some? && Absorbed(read, WithEvent(read, s, event).value, rest, u)
    ensures Absorbed(read, s, [event] + rest, u)
  {
    hide WithEvent, Good, Matches, Fails, Texts, Reasonings, LastResponse, Told, ToldOf;
    var t, good := WithEvent(read, s, event).value, Good(read, rest);
    GoodFirst(read, event, rest);
    EventAbsorbed(read, s, event);
    FirstOf(read, event, good, s.completed);
    Regroup(s.assistantText, if event.TextDelta? then event.text else "", Texts(good));
    Regroup(s.reasoningText, if event.ReasoningDelta? then event.text else "", Reasonings(good));
    Regroup(s.sent, ToldOf(event), Told(good));
  }

  lemma FirstOf(read: ReadResponse, event: Event, good: seq<Event>, before: Option<Completion>)
    ensures Texts([event] + good) == (if event.TextDelta? then event.text else "") + Texts(good)
    ensures Reasonings([event] + good) == (if event.ReasoningDelta? then event.text else "") + Reasonings(good)
    ensures LastResponse(read, [event] + good, before) ==
            LastResponse(read, good, if event.Response? && event.value.Some? then read(event.value.value) else before)
    ensures Told([event] + good) == ToldOf(event) + Told(good)
  {
    assert ([event] + good)[1..] == good;
  }

  lemma AbsorbedDone(read: ReadResponse, s: ParserState, events: seq<Event>, u: ParserState)
    requires Absorbed(read, s.(done := true), events, u)
    ensures Absorbed(read, s, events, u)
  {
  }

  lemma {:induction false} FrameAbsorbed(decode: Decode, read: ReadResponse, s: ParserState, lines: seq<string>)
    requires Matches(s)
    ensures Absorbed(read, s, EventsOf(decode, lines), DataStep(decode, read, s, lines).state)
    ensures DataStep(decode, read, s, lines).Continue? ==>
              Good(read, EventsOf(decode, lines)) == EventsOf(decode, lines)
    decreases |lines|
  {
    hide Trim, EventOf, Absorbed, Matches, WithEvent, Fails, Good;
    AbsorbedNothing(read, s);
    if lines == [] {
      GoodNothing(read);
    } else {
      var data := Trim(lines[0]);
      if data == "" {
        FrameAbsorbed(decode, read, s, lines[1..]);
      } else if data == "[DONE]" {
        FrameAbsorbed(decode, read, s.(done := true), lines[1..]);
        AbsorbedDone(read, s, EventsOf(decode, lines[1..]), DataStep(decode, read, s, lines).state);
      } else if decode(data).Some? {
        var event, rest := EventOf(decode(data).value), EventsOf(decode, lines[1..]);
        GoodFirst(read, event, rest);
        if Fails(read, event) {
          AbsorbedFailure(read, s, event, rest);
        } else {
          EventAbsorbed(read, s, event);
          FrameAbsorbed(decode, read, WithEvent(read, s, event).value, lines[1..]);
          AbsorbedFirst(read, s, event, rest, DataStep(decode, read, s, lines).state);
        }
      }
    }
  }

  lemma GoodNothing(read: ReadResponse)
    ensures Good(read, []) == []
  {
  }

  lemma {:induction false} GoodConcat(read: ReadResponse, a: seq<Event>, b: seq<Event>)
    requires Good(read, a) == a
    ensures Good(read, a + b) == a + Good(read, b)
  {
    if a == [] {
      assert a + b == b;
    } else {
      assert (a + b)[1..] == a[1..] + b;
      GoodConcat(read, a[1..], b);
    }
  }

  lemma {:induction false} TextsConcat(a: seq<Event>, b: seq<Event>)
    ensures Texts(a + b) == Texts(a) + Texts(b) && Reasonings(a + b) == Reasonings(a) + Reasonings(b)
  {
    if a == [] {
      assert a + b == b;
    } else {
      assert (a + b)[1..] == a[1..] + b && (a + b)[0] == a[0];
      TextsConcat(a[1..], b);
      Regroup(if a[0].TextDelta? then a[0].text else "", Texts(a[1..]), Texts(b));
      Regroup(if a[0].ReasoningDelta? then a[0].text else "", Reasonings(a[1..]), Reasonings(b));
    }
  }

  lemma {:induction false} ToldConcat(a: seq<Event>, b: seq<Event>)
    ensures Told(a + b) == Told(a) + Told(b)
  {
    if a == [] {
      assert a + b == b;
    } else {
      assert (a + b)[1..] == a[1..] + b && (a + b)[0] == a[0];
      ToldConcat(a[1..], b);
      Regroup(ToldOf(a[0]), Told(a[1..]), Told(b));
    }
  }

  lemma {:induction false} LastResponseConcat(
    read: ReadResponse, a: seq<Event>, b: seq<Event>, before: Option<Completion>)
    ensures LastResponse(read, a + b, before) == LastResponse(read, b, LastResponse(read, a, before))
    decreases |a|
  {
    if a == [] {
      assert a + b == b;
    } else {
      assert (a + b)[1..] == a[1..] + b;
      LastResponseConcat(read, a[1..], b,
                         if a[0].Response? && a[0].value.Some? then read(a[0].value.value) else before);
    }
  }

  lemma AbsorbedConcat(read: ReadResponse, s: ParserState, a: seq<Event>, t: ParserState, b: seq<Event>, u: ParserState)
    requires Absorbed(read, s, a, t) && Good(read, a) == a && Absorbed(read, t, b, u)
    ensures Absorbed(read, s, a + b, u)
  {
    hide Good, Matches, Texts, Reasonings, LastResponse, Told;
    GoodConcat(read, a, b);
    ToldConcat(a, Good(read, b));
    Regroup(s.sent, Told(a), Told(Good(read, b)));
    TextsConcat(a, Good(read, b));
    Regroup(s.assistantText, Texts(a), Texts(Good(read, b)));
    Regroup(s.reasoningText, Reasonings(a), Reasonings(Good(read, b)));
    LastResponseConcat(read, a, Good(read, b), s.completed);
  }

  lemma {:induction false} RunAbsorbed(decode: Decode, read: ReadResponse, s: ParserState, frames: seq<string>)
    requires Matches(s)
    ensures Absorbed(read, s, EventsRead(decode, read, s, frames),
                     ParseFrames(FrameStep(decode, read), s, frames).state)
    decreases |frames|
  {
    AbsorbedNothing(read, s);
    if frames != [] {
      var step := FrameStep(decode, read)(s, frames[0]);
      var first := EventsOf(decode, DataLines(frames[0]));
      FrameAbsorbed(decode, read, s, DataLines(frames[0]));
      assert Matches(step.state);
      hide DataStep, DataLines, EventsOf, Absorbed, Matches, Good;
      if step.Continue? {
        var rest := EventsRead(decode, read, step.state, frames[1..]);
        RunAbsorbed(decode, read, step.state, frames[1..]);
        AbsorbedConcat(read, s, first, step.state, rest, ParseFrames(FrameStep(decode, read), s, frames).state);
      } else {
        assert first + [] == first;
      }
    }
  }

  /** The text a turn must have: a completed response's own unless it is blank and something was streamed, else what was
    * streamed. */
  predicate SpokenBy(turn: Completion, events: seq<Event>, completed: Option<Completion>) {
    && turn.text.GetOr("") == (if completed.Some? && completed.value.text.GetOr("") != ""
                               then completed.value.text.value else Texts(events))
    && (turn.text.None? <==> Texts(events) == "" && (completed.Some? ==> completed.value.text.None?))
    && turn.reasoning == (if completed.Some? && completed.value.reasoning != [] then completed.value.reasoning
                          else if Reasonings(events) != "" then [Reasonings(events)] else [])
    && turn.toolCalls == (if completed.Some? then completed.value.toolCalls else [])
    && turn.tokenUsage == (if completed.Some? then completed.value.tokenUsage else None)
  }

  /** Whatever a stream delivers and however it ends: the parser holds the concatenation of the deltas sent to the
    * sink, which is that of the deltas received before the first failing event, and the last completed response.
    * The finished turn takes its tool calls and usage from that response, and loses no streamed text unless the
    * response has its own. */
  lemma StreamSummary(decode: Decode, read: ReadResponse, text: string, ending: Ending)
    ensures var s := Reference(FrameStep(decode, read), INITIAL, text, ending).state;
            var events := Good(read, EventsRead(decode, read, INITIAL, FramesHanded(text, ending)));
            && Matches(s) && s.assistantText == Texts(events) && s.reasoningText == Reasonings(events)
            && s.completed == LastResponse(read, events, None) && s.sent == Told(events)
            && SpokenBy(FinishedCompletion(s), events, LastResponse(read, events, None))
  {
    assert Matches(INITIAL);
    hide FramesHanded, EventsRead, ParseFrames, Reference, Good, LastResponse, Texts, Reasonings, Told, FrameStep;
    var frames := FramesHanded(text, ending);
    var good := Good(read, EventsRead(decode, read, INITIAL, frames));
    ReferenceParsesFrames(FrameStep(decode, read), INITIAL, text, ending);
    RunAbsorbed(decode, read, INITIAL, frames);
    assert [] + Told(good) == Told(good);
    assert "" + Texts(good) == Texts(good) && "" + Reasonings(good) == Reasonings(good);
    Spoken(ParseFrames(FrameStep(decode, read), INITIAL, frames).state, good);
  }

  lemma Spoken(s: ParserState, events: seq<Event>)
    requires s.assistantText == Texts(events) && s.reasoningText == Reasonings(events)
    ensures SpokenBy(FinishedCompletion(s), events, s.completed)
  {
    hide Texts, Reasonings;
  }

  // ---------- The parser object ----------

  class ChatGptCodexStreamParser {
    var assistantText: string
    var reasoningText: string
    var completed: Option<Completion>
    var done: bool

    function View(sink: Chat.EventSink): ParserState
      reads this, sink
    {
      ParserState(assistantText, reasoningText, completed, done, sink.events)
    }

    constructor ()
      ensures assistantText == "" && reasoningText == "" && completed == None && !done
    {
      assistantText, reasoningText, completed, done := "", "", None, false;
    }

    method ApplyEvent(read: ReadResponse, event: Event, sink: Chat.EventSink) returns (ok: bool)
      modifies this, sink
      ensures WithEvent(read, old(View(sink)), event) == if ok then Some(View(sink)) else None
      ensures !ok ==> View(sink) == old(View(sink))
    {
      match event {
        case TextDelta(text) =>
          if text != "" {
            assistantText := assistantText + text;
            sink.Event(Chat.AssistantTextDelta(text));
          }
        case ReasoningDelta(text) =>
          if text != "" {
            reasoningText := reasoningText + text;
            sink.Event(Chat.ReasoningDelta(text));
          }
        case Response(value) =>
          if value.None? {
            return false;
          }
          var completion := read(value.value);
          if completion.None? {
            return false;
          }
          completed, done := completion, true;
        case Failure => return false;
        case Ignored =>
      }
      return true;
    }

    method ProcessFrame(decode: Decode, read: ReadResponse, frame: string, sink: Chat.EventSink) returns (ok: bool)
      modifies this, sink
      ensures FrameStep(decode, read)(old(View(sink)), frame) ==
              if !ok then Failed(View(sink)) else if done then Finished(View(sink)) else Continue(View(sink))
    {
      hide DataLines, Trim, WithEvent, EventOf;
      var lines := DataLines(frame);
      for i := 0 to |lines|
        invariant DataStep(decode, read, View(sink), lines[i..]) == DataStep(decode, read, old(View(sink)), lines)
      {
        assert lines[i..][1..] == lines[i + 1..];
        var data := Trim(lines[i]);
        if data == "" {
          continue;
        }
        if data == "[DONE]" {
          done := true;
          continue;
        }
        var value := decode(data);
        if value.None? {
          return false;
        }
        var applied := ApplyEvent(read, EventOf(value.value), sink);
        if !applied {
          return false;
        }
      }
      return true;
    }

    method Finish(sink: Chat.EventSink) returns (completion: Completion)
      ensures completion == FinishedCompletion(View(sink))
    {
      if completed.Some? {
        completion := completed.value;
        if completion.text.GetOr("") == "" && assistantText != "" {
          completion := completion.(text := Some(assistantText));
        }
        if completion.reasoning == [] && reasoningText != "" {
          completion := completion.(reasoning := completion.reasoning + [reasoningText]);
        }
        return;
      }
      completion := Completion(
        if assistantText == "" then None else Some(assistantText),
        [],
        if reasoningText == "" then [] else [reasoningText],
        None);
    }
  }
}
