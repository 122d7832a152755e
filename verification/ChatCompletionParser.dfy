/** The stateful parser of streamed chat completions: text and reasoning deltas go to the sink as they arrive, tool
  * calls are assembled per index. JSON decoding is a parameter: `Decode` for stream chunks, `DecodeArguments` for
  * arguments. */
module ChatCompletionParser {
  import opened JsonValue
  import opened SseFraming
  import opened StreamDriver
  import opened Text
  import opened Wrappers

  datatype TokenUsage = TokenUsage(input: int, output: int, total: int)
  datatype FunctionDelta = FunctionDelta(name: Option<string>, arguments: Option<string>)
  datatype ToolCallDelta = ToolCallDelta(index: nat, id: Option<string>, function_: Option<FunctionDelta>)
  datatype Delta = Delta(
    content: Option<string>,
    reasoningContent: Option<string>,
    reasoning: Option<string>,
    reasoningText: Option<string>,
    toolCalls: seq<ToolCallDelta>)
  datatype Choice = Choice(delta: Delta, finished: bool, usage: Option<TokenUsage>)
  datatype StreamChunk = StreamChunk(choices: seq<Choice>, usage: Option<TokenUsage>)

  type Decode = string -> Option<StreamChunk>
  type DecodeArguments = string -> Option<Json>

  datatype PartialToolCall = PartialToolCall(id: Option<string>, name: Option<string>, arguments: string)
  datatype ToolCall = ToolCall(id: string, name: string, arguments: Json)
  datatype Reasoning = Reasoning(text: string, field: string)
  datatype Completion = Completion(
    text: Option<string>,
    toolCalls: seq<ToolCall>,
    reasoning: Option<Reasoning>,
    tokenUsage: Option<TokenUsage>)
  datatype FinishError = MissingName(id: string) | InvalidArguments(id: string)
  datatype StreamEvent = ReasoningDelta(text: string) | AssistantTextDelta(text: string)

  /** The fields of the parser together with the events its sink has received. */
  datatype ParserState = ParserState(
    assistantText: string,
    reasoningText: string,
    reasoningField: Option<string>,
    tokenUsage: Option<TokenUsage>,
    toolCalls: map<nat, PartialToolCall>,
    done: bool,
    sent: seq<StreamEvent>)

  const INITIAL := ParserState("", "", None, None, map[], false, [])

  // ---------- One delta ----------

  function NonEmpty(field: string, text: Option<string>): seq<(string, string)> {
    if text.Some? && text.value != "" then [(field, text.value)] else []
  }

  function ReasoningFields(delta: Delta): seq<(string, string)> {
    NonEmpty("reasoning_content", delta.reasoningContent)
    + NonEmpty("reasoning", delta.reasoning)
    + NonEmpty("reasoning_text", delta.reasoningText)
  }

  function WithReasoning(s: ParserState, fields: seq<(string, string)>): ParserState
    decreases |fields|
  {
    if fields == [] then s
    else
      var (field, text) := fields[0];
      WithReasoning(
        s.(reasoningField := if s.reasoningField.None? then Some(field) else s.reasoningField,
           reasoningText := s.reasoningText + text,
           sent := s.sent + [ReasoningDelta(text)]),
        fields[1..])
  }

  function WithContent(s: ParserState, content: Option<string>): ParserState {
    if content.Some? && content.value != "" then
      s.(assistantText := s.assistantText + content.value, sent := s.sent + [AssistantTextDelta(content.value)])
    else s
  }

  function WithToolCall(calls: map<nat, PartialToolCall>, call: ToolCallDelta): map<nat, PartialToolCall> {
    var entry := if call.index in calls then calls[call.index] else PartialToolCall(None, None, "");
    var name := if call.function_.Some? then call.function_.value.name else None;
    var arguments := if call.function_.Some? then call.function_.value.arguments else None;
    calls[call.index := PartialToolCall(
            if call.id.Some? then call.id else entry.id,
            if name.Some? then name else entry.name,
            entry.arguments + arguments.GetOr(""))]
  }

  function WithToolCalls(calls: map<nat, PartialToolCall>, deltas: seq<ToolCallDelta>): map<nat, PartialToolCall>
    decreases |deltas|
  {
    if deltas == [] then calls else WithToolCalls(WithToolCall(calls, deltas[0]), deltas[1..])
  }

  function WithDelta(s: ParserState, delta: Delta): ParserState {
    var t := WithContent(WithReasoning(s, ReasoningFields(delta)), delta.content);
    t.(toolCalls := WithToolCalls(t.toolCalls, delta.toolCalls))
  }

  // ---------- One frame ----------

  function WithUsage(s: ParserState, usage: Option<TokenUsage>): ParserState {
    if usage.Some? then s.(tokenUsage := usage) else s
  }

  function WithChoice(s: ParserState, choice: Choice): ParserState {
    var t := WithDelta(WithUsage(s, choice.usage), choice.delta);
    if choice.finished then t.(done := true) else t
  }

  function WithChoices(s: ParserState, choices: seq<Choice>): ParserState
    decreases |choices|
  {
    if choices == [] then s else WithChoices(WithChoice(s, choices[0]), choices[1..])
  }

  function WithChunk(s: ParserState, chunk: StreamChunk): ParserState {
    WithChoices(WithUsage(s, chunk.usage), chunk.choices)
  }

  /** A finished choice does not end the frame: its remaining data lines are still applied. */
  function DataStep(decode: Decode, s: ParserState, lines: seq<string>): Step<ParserState>
    decreases |lines|
  {
    if lines == [] then (if s.done then Finished(s) else Continue(s))
    else
      var data := Trim(lines[0]);
      if data == "" then DataStep(decode, s, lines[1..])
      else if data == "[DONE]" then Finished(s.(done := true))
      else match decode(data)
        case None => Failed(s)
        case Some(chunk) => DataStep(decode, WithChunk(s, chunk), lines[1..])
  }

  function FrameStep(decode: Decode): Parser<ParserState> {
    (s: ParserState, frame: string) => DataStep(decode, s, DataLines(frame))
  }

  // ---------- Finishing ----------

  function CallId(index: nat, partial: PartialToolCall): string {
    partial.id.GetOr("call_stream_" + Decimal(index))
  }

  function FinishedCall(decode: DecodeArguments, index: nat, partial: PartialToolCall): Result<ToolCall, FinishError> {
    var id := CallId(index, partial);
    if partial.name.None? then Err(MissingName(id))
    else if Trim(partial.arguments) == "" then Ok(ToolCall(id, partial.name.value, Object(map[])))
    else match decode(partial.arguments)
      case Some(arguments) => Ok(ToolCall(id, partial.name.value, arguments))
      case None => Err(InvalidArguments(id))
  }

  ghost predicate Ascending(indices: seq<nat>) {
    forall i, j | 0 <= i < j < |indices| :: indices[i] < indices[j]
  }

  ghost predicate Enumerates(indices: seq<nat>, keys: set<nat>) {
    Ascending(indices) && (forall k :: k in indices <==> k in keys)
  }

  /** Finishes the partial calls at `indices` in order; the first failure is the result. */
  function FinishedCalls(decode: DecodeArguments, calls: map<nat, PartialToolCall>, indices: seq<nat>)
    : Result<seq<ToolCall>, FinishError>
    requires forall k <- indices :: k in calls
  {
    if indices == [] then Ok([])
    else match FinishedCall(decode, indices[0], calls[indices[0]])
      case Err(error) => Err(error)
      case Ok(call) =>
        match FinishedCalls(decode, calls, indices[1..])
        case Err(error) => Err(error)
        case Ok(rest) => Ok([call] + rest)
  }

  lemma LeastKey(keys: set<nat>) returns (least: nat)
    requires keys != {}
    ensures least in keys && forall k <- keys :: least <= k
  {
    var some: nat :| some in keys;
    least := some;
    if keys != {some} {
      var other := LeastKey(keys - {some});
      assert forall k <- keys :: k == some || k in keys - {some};
      least := if other < some then other else some;
    }
  }

  /** The keys of a `BTreeMap` in iteration order. */
  ghost function Sorted(keys: set<nat>): (indices: seq<nat>)
    ensures Enumerates(indices, keys)
  {
    if keys == {} then []
    else
      var least := Least(keys);
      [least] + Sorted(keys - {least})
  }

  ghost function Least(keys: set<nat>): (least: nat)
    requires keys != {}
    ensures least in keys && forall k <- keys :: least <= k
  {
    assert exists least :: least in keys && forall k <- keys :: least <= k by {
      var least := LeastKey(keys);
    }
    var least :| least in keys && forall k <- keys :: least <= k;
    least
  }

  ghost function FinishedTurn(decode: DecodeArguments, s: ParserState): Result<Completion, FinishError> {
    match FinishedCalls(decode, s.toolCalls, Sorted(s.toolCalls.Keys))
    case Err(error) => Err(error)
    case Ok(calls) =>
      Ok(Completion(
           if s.assistantText == "" then None else Some(s.assistantText),
           calls,
           if s.reasoningText == "" then None
           else Some(Reasoning(s.reasoningText, s.reasoningField.GetOr("reasoning_content"))),
           s.tokenUsage))
  }

  // ---------- Assembly per index ----------

  /** The deltas for one index, in order. */
  function Only(deltas: seq<ToolCallDelta>, index: nat): seq<ToolCallDelta> {
    if deltas == [] then []
    else (if deltas[0].index == index then [deltas[0]] else []) + Only(deltas[1..], index)
  }

  function LastSome(values: seq<Option<string>>): Option<string> {
    if values == [] then None
    else if values[|values| - 1].Some? then values[|values| - 1]
    else LastSome(values[..|values| - 1])
  }

  function Name(delta: ToolCallDelta): Option<string> {
    if delta.function_.Some? then delta.function_.value.name else None
  }

  function Arguments(delta: ToolCallDelta): string {
    if delta.function_.Some? then delta.function_.value.arguments.GetOr("") else ""
  }

  /** What the deltas of one call amount to: the last id, the last name, all argument fragments in order. */
  function Summary(own: seq<ToolCallDelta>): PartialToolCall {
    PartialToolCall(
      LastSome(seq(|own|, i requires 0 <= i < |own| => own[i].id)),
      LastSome(seq(|own|, i requires 0 <= i < |own| => Name(own[i]))),
      Concat(seq(|own|, i requires 0 <= i < |own| => Arguments(own[i]))))
  }

  function Assemble(deltas: seq<ToolCallDelta>): map<nat, PartialToolCall> {
    WithToolCalls(map[], deltas)
  }

  lemma {:induction false} WithToolCallsConcat(
    calls: map<nat, PartialToolCall>, a: seq<ToolCallDelta>, b: seq<ToolCallDelta>)
    ensures WithToolCalls(calls, a + b) == WithToolCalls(WithToolCalls(calls, a), b)
    decreases |a|
  {
    if a == [] {
      assert a + b == b;
    } else {
      assert (a + b)[1..] == a[1..] + b;
      WithToolCallsConcat(WithToolCall(calls, a[0]), a[1..], b);
    }
  }

  lemma {:induction false} OnlyConcat(a: seq<ToolCallDelta>, b: seq<ToolCallDelta>, index: nat)
    ensures Only(a + b, index) == Only(a, index) + Only(b, index)
  {
    if a == [] {
      assert a + b == b;
    } else {
      assert (a + b)[1..] == a[1..] + b && (a + b)[0] == a[0];
      OnlyConcat(a[1..], b, index);
      Regroup(if a[0].index == index then [a[0]] else [], Only(a[1..], index), Only(b, index));
    }
  }

  lemma SummaryGrows(own: seq<ToolCallDelta>, last: ToolCallDelta)
    ensures Summary(own + [last]) ==
            PartialToolCall(
              if last.id.Some? then last.id else Summary(own).id,
              if Name(last).Some? then Name(last) else Summary(own).name,
              Summary(own).arguments + Arguments(last))
  {
    var more := own + [last];
    var ids := seq(|more|, i requires 0 <= i < |more| => more[i].id);
    var names := seq(|more|, i requires 0 <= i < |more| => Name(more[i]));
    var arguments := seq(|own|, i requires 0 <= i < |own| => Arguments(own[i]));
    assert ids[..|own|] == seq(|own|, i requires 0 <= i < |own| => own[i].id);
    assert names[..|own|] == seq(|own|, i requires 0 <= i < |own| => Name(own[i]));
    assert seq(|more|, i requires 0 <= i < |more| => Arguments(more[i])) == arguments + [Arguments(last)];
    ConcatAppend(arguments, [Arguments(last)]);
    assert Concat([Arguments(last)]) == Arguments(last);
  }

  /** However the deltas of different calls are interleaved, the partial call at an index is made from the deltas
    * for that index alone. */
  lemma {:induction false} AssembledPerIndex(deltas: seq<ToolCallDelta>, index: nat)
    ensures index in Assemble(deltas) <==> Only(deltas, index) != []
    ensures index in Assemble(deltas) ==> Assemble(deltas)[index] == Summary(Only(deltas, index))
    decreases |deltas|
  {
    if deltas != [] {
      var front, last := deltas[..|deltas| - 1], deltas[|deltas| - 1];
      assert deltas == front + [last];
      AssembledPerIndex(front, index);
      WithToolCallsConcat(map[], front, [last]);
      OnlyConcat(front, [last], index);
      SummaryGrows(Only(front, index), last);
      assert Only([last], index) == if last.index == index then [last] else [];
      assert WithToolCalls(Assemble(front), [last]) == WithToolCall(Assemble(front), last);
      assert Summary([]) == PartialToolCall(None, None, "");
      var before := if index in Assemble(front) then Assemble(front)[index] else PartialToolCall(None, None, "");
      assert before == Summary(Only(front, index));
      if last.index != index {
        assert Only(front, index) + [] == Only(front, index);
      }
    }
  }

  lemma InterleavingDoesNotMatter(a: seq<ToolCallDelta>, b: seq<ToolCallDelta>)
    requires forall index: nat :: Only(a, index) == Only(b, index)
    ensures Assemble(a) == Assemble(b)
  {
    forall index: nat
      ensures index in Assemble(a) <==> index in Assemble(b)
      ensures index in Assemble(a) ==> Assemble(a)[index] == Assemble(b)[index]
    {
      AssembledPerIndex(a, index);
      AssembledPerIndex(b, index);
    }
  }

  // ---------- Whole streams ----------

  /** The chunks a frame's data lines decode to, up to `[DONE]` or the first line that does not decode. */
  function ChunksOf(decode: Decode, lines: seq<string>): seq<StreamChunk> {
    if lines == [] then []
    else
      var data := Trim(lines[0]);
      if data == "" then ChunksOf(decode, lines[1..])
      else if data == "[DONE]" || decode(data).None? then []
      else [decode(data).value] + ChunksOf(decode, lines[1..])
  }

  /** The chunks parsed from a list of frames before the parser stops. */
  function ChunksUsed(decode: Decode, s: ParserState, frames: seq<string>): seq<StreamChunk>
    decreases |frames|
  {
    if frames == [] then []
    else
      var step := FrameStep(decode)(s, frames[0]);
      ChunksOf(decode, DataLines(frames[0]))
      + if step.Continue? then ChunksUsed(decode, step.state, frames[1..]) else []
  }

  function WithChunks(s: ParserState, chunks: seq<StreamChunk>): ParserState
    decreases |chunks|
  {
    if chunks == [] then s else WithChunks(WithChunk(s, chunks[0]), chunks[1..])
  }

  /** What a stream says, piece by piece: what is reported or told by one field of one chunk, choice or delta. */
  datatype Piece =
    | Usage(usage: TokenUsage)
    | Reasoned(field: string, text: string)
    | Said(text: string)
    | Called(delta: ToolCallDelta)

  function UsagePieces(usage: Option<TokenUsage>): seq<Piece> {
    if usage.Some? then [Usage(usage.value)] else []
  }

  function CallPieces(deltas: seq<ToolCallDelta>): seq<Piece> {
    if deltas == [] then [] else [Called(deltas[0])] + CallPieces(deltas[1..])
  }

  function DeltaPieces(delta: Delta): seq<Piece> {
    (if delta.reasoningContent.GetOr("") != ""
     then [Reasoned("reasoning_content", delta.reasoningContent.value)] else [])
    + (if delta.reasoning.GetOr("") != "" then [Reasoned("reasoning", delta.reasoning.value)] else [])
    + (if delta.reasoningText.GetOr("") != "" then [Reasoned("reasoning_text", delta.reasoningText.value)] else [])
    + (if delta.content.GetOr("") != "" then [Said(delta.content.value)] else [])
    + CallPieces(delta.toolCalls)
  }

  function ChoicesPieces(choices: seq<Choice>): seq<Piece> {
    if choices == [] then []
    else UsagePieces(choices[0].usage) + DeltaPieces(choices[0].delta) + ChoicesPieces(choices[1..])
  }

  function PiecesOf(chunks: seq<StreamChunk>): seq<Piece> {
    if chunks == [] then []
    else UsagePieces(chunks[0].usage) + ChoicesPieces(chunks[0].choices) + PiecesOf(chunks[1..])
  }

  /** All that was said, in order. */
  function Contents(pieces: seq<Piece>): string {
    if pieces == [] then "" else (if pieces[0].Said? then pieces[0].text else "") + Contents(pieces[1..])
  }

  /** All that was reasoned, in order, whatever the fields. */
  function Reasonings(pieces: seq<Piece>): string {
    if pieces == [] then "" else (if pieces[0].Reasoned? then pieces[0].text else "") + Reasonings(pieces[1..])
  }

  function FirstField(pieces: seq<Piece>): Option<string> {
    if pieces == [] then None
    else if pieces[0].Reasoned? then Some(pieces[0].field)
    else FirstField(pieces[1..])
  }

  function LastUsage(pieces: seq<Piece>): Option<TokenUsage> {
    if pieces == [] then None
    else if LastUsage(pieces[1..]).Some? then LastUsage(pieces[1..])
    else if pieces[0].Usage? then Some(pieces[0].usage)
    else None
  }

  function CallDeltas(pieces: seq<Piece>): seq<ToolCallDelta> {
    if pieces == [] then [] else (if pieces[0].Called? then [pieces[0].delta] else []) + CallDeltas(pieces[1..])
  }

  /** What the sink must be told. */
  function Events(pieces: seq<Piece>): seq<StreamEvent> {
    if pieces == [] then [] else EventFor(pieces[0]) + Events(pieces[1..])
  }

  function EventFor(piece: Piece): seq<StreamEvent> {
    match piece
    case Reasoned(_, text) => [ReasoningDelta(text)]
    case Said(text) => [AssistantTextDelta(text)]
    case _ => []
  }

  function ChoicesOf(chunks: seq<StreamChunk>): seq<Choice> {
    if chunks == [] then [] else chunks[0].choices + ChoicesOf(chunks[1..])
  }

  /** Equal except for `done`, which decides when parsing stops but nothing else. */
  predicate SameButDone(a: ParserState, b: ParserState) {
    a.(done := b.done) == b
  }

  /** The texts the sink has received, concatenated. */
  function AssistantTexts(events: seq<StreamEvent>): string {
    if events == [] then ""
    else (if events[0].AssistantTextDelta? then events[0].text else "") + AssistantTexts(events[1..])
  }

  function ReasoningTexts(events: seq<StreamEvent>): string {
    if events == [] then ""
    else (if events[0].ReasoningDelta? then events[0].text else "") + ReasoningTexts(events[1..])
  }

  lemma {:induction false} EventTextsAppend(events: seq<StreamEvent>, event: StreamEvent)
    ensures AssistantTexts(events + [event]) ==
            AssistantTexts(events) + if event.AssistantTextDelta? then event.text else ""
    ensures ReasoningTexts(events + [event]) ==
            ReasoningTexts(events) + if event.ReasoningDelta? then event.text else ""
  {
    if events != [] {
      EventTextsAppend(events[1..], event);
      assert (events + [event])[1..] == events[1..] + [event];
    }
  }

  lemma {:induction false} EventsTell(pieces: seq<Piece>)
    ensures AssistantTexts(Events(pieces)) == Contents(pieces)
    ensures ReasoningTexts(Events(pieces)) == Reasonings(pieces)
  {
    if pieces != [] {
      EventsTell(pieces[1..]);
      var rest := Events(pieces[1..]);
      assert [] + rest == rest;
      assert pieces[0].Reasoned? ==> ([ReasoningDelta(pieces[0].text)] + rest)[1..] == rest;
      assert pieces[0].Said? ==> ([AssistantTextDelta(pieces[0].text)] + rest)[1..] == rest;
      assert "" + Contents(pieces[1..]) == Contents(pieces[1..]);
      assert "" + Reasonings(pieces[1..]) == Reasonings(pieces[1..]);
    }
  }

  lemma {:induction false} TextsConcat(a: seq<Piece>, b: seq<Piece>)
    ensures Contents(a + b) == Contents(a) + Contents(b)
    ensures Reasonings(a + b) == Reasonings(a) + Reasonings(b)
  {
    if a == [] {
      assert a + b == b;
    } else {
      assert (a + b)[1..] == a[1..] + b && (a + b)[0] == a[0];
      TextsConcat(a[1..], b);
      Regroup(if a[0].Said? then a[0].text else "", Contents(a[1..]), Contents(b));
      Regroup(if a[0].Reasoned? then a[0].text else "", Reasonings(a[1..]), Reasonings(b));
    }
  }

  lemma {:induction false} FieldAndUsageConcat(a: seq<Piece>, b: seq<Piece>)
    ensures FirstField(a + b) == if FirstField(a).Some? then FirstField(a) else FirstField(b)
    ensures LastUsage(a + b) == if LastUsage(b).Some? then LastUsage(b) else LastUsage(a)
  {
    if a == [] {
      assert a + b == b;
    } else {
      assert (a + b)[1..] == a[1..] + b && (a + b)[0] == a[0];
      FieldAndUsageConcat(a[1..], b);
    }
  }

  lemma {:induction false} CallsAndEventsConcat(a: seq<Piece>, b: seq<Piece>)
    ensures CallDeltas(a + b) == CallDeltas(a) + CallDeltas(b)
    ensures Events(a + b) == Events(a) + Events(b)
  {
    hide EventFor;
    if a == [] {
      assert a + b == b;
    } else {
      assert (a + b)[1..] == a[1..] + b && (a + b)[0] == a[0];
      CallsAndEventsConcat(a[1..], b);
      Regroup(if a[0].Called? then [a[0].delta] else [], CallDeltas(a[1..]), CallDeltas(b));
      Regroup(EventFor(a[0]), Events(a[1..]), Events(b));
    }
  }

  /** `t` is `s` with the pieces taken in. */
  predicate Absorbs(s: ParserState, pieces: seq<Piece>, t: ParserState) {
    && t.assistantText == s.assistantText + Contents(pieces)
    && t.reasoningText == s.reasoningText + Reasonings(pieces)
    && t.reasoningField == (if s.reasoningField.Some? then s.reasoningField else FirstField(pieces))
    && t.tokenUsage == (if LastUsage(pieces).Some? then LastUsage(pieces) else s.tokenUsage)
    && t.toolCalls == WithToolCalls(s.toolCalls, CallDeltas(pieces))
    && t.sent == s.sent + Events(pieces)
  }

  lemma AbsorbsNothing(s: ParserState)
    ensures Absorbs(s, [], s)
  {
    assert s.assistantText + "" == s.assistantText && s.reasoningText + "" == s.reasoningText && s.sent + [] == s.sent;
  }

  lemma AbsorbsThen(s: ParserState, a: seq<Piece>, t: ParserState, b: seq<Piece>, u: ParserState)
    requires Absorbs(s, a, t) && Absorbs(t, b, u)
    ensures Absorbs(s, a + b, u)
  {
    hide WithToolCalls, Contents, Reasonings, FirstField, LastUsage, CallDeltas, Events;
    TextsConcat(a, b);
    FieldAndUsageConcat(a, b);
    CallsAndEventsConcat(a, b);
    WithToolCallsConcat(s.toolCalls, CallDeltas(a), CallDeltas(b));
    Regroup(s.assistantText, Contents(a), Contents(b));
    Regroup(s.reasoningText, Reasonings(a), Reasonings(b));
    Regroup(s.sent, Events(a), Events(b));
  }

  lemma OnePiece(piece: Piece)
    ensures var pieces := [piece];
            && Contents(pieces) == (if piece.Said? then piece.text else "")
            && Reasonings(pieces) == (if piece.Reasoned? then piece.text else "")
            && FirstField(pieces) == (if piece.Reasoned? then Some(piece.field) else None)
            && LastUsage(pieces) == (if piece.Usage? then Some(piece.usage) else None)
            && CallDeltas(pieces) == (if piece.Called? then [piece.delta] else [])
            && Events(pieces) == (if piece.Reasoned? then [ReasoningDelta(piece.text)]
                                  else if piece.Said? then [AssistantTextDelta(piece.text)] else [])
  {
    assert [piece][1..] == [];
  }

  lemma UsageAbsorbed(s: ParserState, usage: Option<TokenUsage>)
    ensures Absorbs(s, UsagePieces(usage), WithUsage(s, usage))
  {
    AbsorbsNothing(s);
    if usage.Some? {
      OnePiece(Usage(usage.value));
      hide Contents, Reasonings, FirstField, LastUsage, CallDeltas, Events;
    }
  }

  lemma ContentAbsorbed(s: ParserState, content: Option<string>)
    ensures Absorbs(s, if content.GetOr("") != "" then [Said(content.value)] else [], WithContent(s, content))
  {
    AbsorbsNothing(s);
    if content.GetOr("") != "" {
      OnePiece(Said(content.value));
      assert s.reasoningText + "" == s.reasoningText;
      hide Contents, Reasonings, FirstField, LastUsage, CallDeltas, Events;
    }
  }

  function AsPieces(fields: seq<(string, string)>): seq<Piece> {
    if fields == [] then [] else [Reasoned(fields[0].0, fields[0].1)] + AsPieces(fields[1..])
  }

  lemma {:induction false} ReasoningAbsorbed(s: ParserState, fields: seq<(string, string)>)
    ensures Absorbs(s, AsPieces(fields), WithReasoning(s, fields))
    decreases |fields|
  {
    if fields == [] {
      AbsorbsNothing(s);
    } else {
      var (field, text) := fields[0];
      var t := s.(reasoningField := if s.reasoningField.None? then Some(field) else s.reasoningField,
                  reasoningText := s.reasoningText + text,
                  sent := s.sent + [ReasoningDelta(text)]);
      OnePiece(Reasoned(field, text));
      assert s.assistantText + "" == s.assistantText;
      hide Contents, Reasonings, FirstField, LastUsage, CallDeltas, Events;
      assert Absorbs(s, [Reasoned(field, text)], t);
      hide Absorbs;
      ReasoningAbsorbed(t, fields[1..]);
      AbsorbsThen(s, [Reasoned(field, text)], t, AsPieces(fields[1..]), WithReasoning(s, fields));
    }
  }

  lemma {:induction false} CallPiecesTell(deltas: seq<ToolCallDelta>)
    ensures var pieces := CallPieces(deltas);
            && Contents(pieces) == "" && Reasonings(pieces) == "" && FirstField(pieces) == None
            && LastUsage(pieces) == None && CallDeltas(pieces) == deltas && Events(pieces) == []
  {
    if deltas != [] {
      CallPiecesTell(deltas[1..]);
      assert CallPieces(deltas)[1..] == CallPieces(deltas[1..]);
    }
  }

  lemma CallsAbsorbed(s: ParserState, deltas: seq<ToolCallDelta>)
    ensures Absorbs(s, CallPieces(deltas), s.(toolCalls := WithToolCalls(s.toolCalls, deltas)))
  {
    CallPiecesTell(deltas);
    assert s.assistantText + "" == s.assistantText && s.reasoningText + "" == s.reasoningText && s.sent + [] == s.sent;
    hide WithToolCalls;
  }

  lemma ReasoningPieces(delta: Delta)
    ensures AsPieces(ReasoningFields(delta)) ==
            (if delta.reasoningContent.GetOr("") != ""
             then [Reasoned("reasoning_content", delta.reasoningContent.value)] else [])
            + (if delta.reasoning.GetOr("") != "" then [Reasoned("reasoning", delta.reasoning.value)] else [])
            + (if delta.reasoningText.GetOr("") != ""
               then [Reasoned("reasoning_text", delta.reasoningText.value)] else [])
  {
    AsPiecesConcat(NonEmpty("reasoning_content", delta.reasoningContent) + NonEmpty("reasoning", delta.reasoning),
                   NonEmpty("reasoning_text", delta.reasoningText));
    AsPiecesConcat(NonEmpty("reasoning_content", delta.reasoningContent), NonEmpty("reasoning", delta.reasoning));
    OneAsPieces("reasoning_content", delta.reasoningContent);
    OneAsPieces("reasoning", delta.reasoning);
    OneAsPieces("reasoning_text", delta.reasoningText);
    hide NonEmpty, AsPieces;
  }

  lemma OneAsPieces(field: string, text: Option<string>)
    ensures AsPieces(NonEmpty(field, text)) == if text.GetOr("") != "" then [Reasoned(field, text.value)] else []
  {
    assert NonEmpty(field, text) != [] ==> NonEmpty(field, text)[1..] == [];
  }

  lemma {:induction false} AsPiecesConcat(a: seq<(string, string)>, b: seq<(string, string)>)
    ensures AsPieces(a + b) == AsPieces(a) + AsPieces(b)
  {
    if a == [] {
      assert a + b == b;
    } else {
      assert (a + b)[1..] == a[1..] + b;
      AsPiecesConcat(a[1..], b);
    }
  }

  lemma DeltaAbsorbed(s: ParserState, delta: Delta)
    ensures Absorbs(s, DeltaPieces(delta), WithDelta(s, delta))
  {
    var t := WithReasoning(s, ReasoningFields(delta));
    var u := WithContent(t, delta.content);
    ReasoningPieces(delta);
    ReasoningAbsorbed(s, ReasoningFields(delta));
    ContentAbsorbed(t, delta.content);
    CallsAbsorbed(u, delta.toolCalls);
    hide Absorbs, WithReasoning, WithContent, WithToolCalls, ReasoningFields, AsPieces, CallPieces;
    var reasoned := AsPieces(ReasoningFields(delta));
    var said: seq<Piece> := if delta.content.GetOr("") != "" then [Said(delta.content.value)] else [];
    AbsorbsThen(s, reasoned, t, said, u);
    AbsorbsThen(s, reasoned + said, u, CallPieces(delta.toolCalls), WithDelta(s, delta));
  }

  lemma ChoiceAbsorbed(s: ParserState, choice: Choice)
    ensures Absorbs(s, UsagePieces(choice.usage) + DeltaPieces(choice.delta), WithChoice(s, choice))
  {
    var t := WithUsage(s, choice.usage);
    var u := WithDelta(t, choice.delta);
    UsageAbsorbed(s, choice.usage);
    DeltaAbsorbed(t, choice.delta);
    hide WithUsage, WithDelta, UsagePieces, DeltaPieces;
    AbsorbsThen(s, UsagePieces(choice.usage), t, DeltaPieces(choice.delta), u);
    hide Contents, Reasonings, FirstField, LastUsage, CallDeltas, Events, WithToolCalls;
  }

  lemma {:induction false} ChoicesAbsorbed(s: ParserState, choices: seq<Choice>)
    ensures Absorbs(s, ChoicesPieces(choices), WithChoices(s, choices))
    decreases |choices|
  {
    hide Absorbs, WithChoice, UsagePieces, DeltaPieces;
    if choices == [] {
      AbsorbsNothing(s);
    } else {
      var t := WithChoice(s, choices[0]);
      ChoiceAbsorbed(s, choices[0]);
      ChoicesAbsorbed(t, choices[1..]);
      AbsorbsThen(s, UsagePieces(choices[0].usage) + DeltaPieces(choices[0].delta), t,
                  ChoicesPieces(choices[1..]), WithChoices(s, choices));
    }
  }

  lemma ChunkAbsorbed(s: ParserState, chunk: StreamChunk)
    ensures Absorbs(s, UsagePieces(chunk.usage) + ChoicesPieces(chunk.choices), WithChunk(s, chunk))
  {
    hide Absorbs, WithUsage, WithChoices, UsagePieces, ChoicesPieces;
    var t := WithUsage(s, chunk.usage);
    UsageAbsorbed(s, chunk.usage);
    ChoicesAbsorbed(t, chunk.choices);
    AbsorbsThen(s, UsagePieces(chunk.usage), t, ChoicesPieces(chunk.choices), WithChunk(s, chunk));
  }

  lemma {:induction false} ChunksAbsorbed(s: ParserState, chunks: seq<StreamChunk>)
    ensures Absorbs(s, PiecesOf(chunks), WithChunks(s, chunks))
    decreases |chunks|
  {
    hide Absorbs, WithChunk, UsagePieces, ChoicesPieces;
    if chunks == [] {
      AbsorbsNothing(s);
    } else {
      var t := WithChunk(s, chunks[0]);
      ChunkAbsorbed(s, chunks[0]);
      ChunksAbsorbed(t, chunks[1..]);
      AbsorbsThen(s, UsagePieces(chunks[0].usage) + ChoicesPieces(chunks[0].choices), t,
                  PiecesOf(chunks[1..]), WithChunks(s, chunks));
    }
  }

  lemma {:induction false} WithChunksConcat(s: ParserState, a: seq<StreamChunk>, b: seq<StreamChunk>)
    ensures WithChunks(s, a + b) == WithChunks(WithChunks(s, a), b)
    decreases |a|
  {
    if a == [] {
      assert a + b == b;
    } else {
      assert (a + b)[1..] == a[1..] + b;
      WithChunksConcat(WithChunk(s, a[0]), a[1..], b);
    }
  }

  lemma {:induction false} DataStepAbsorbs(decode: Decode, s: ParserState, lines: seq<string>)
    ensures var step := DataStep(decode, s, lines);
            && SameButDone(step.state, WithChunks(s, ChunksOf(decode, lines)))
            && (step.Continue? ==> step.state == WithChunks(s, ChunksOf(decode, lines)))
    decreases |lines|
  {
    if lines != [] {
      var data := Trim(lines[0]);
      hide Trim, WithChunk;
      if data == "" {
        DataStepAbsorbs(decode, s, lines[1..]);
      } else if data != "[DONE]" && decode(data).Some? {
        DataStepAbsorbs(decode, WithChunk(s, decode(data).value), lines[1..]);
        assert ChunksOf(decode, lines)[1..] == ChunksOf(decode, lines[1..]);
      }
    }
  }

  lemma {:induction false} RunAbsorbs(decode: Decode, s: ParserState, frames: seq<string>)
    ensures SameButDone(ParseFrames(FrameStep(decode), s, frames).state, WithChunks(s, ChunksUsed(decode, s, frames)))
    decreases |frames|
  {
    if frames != [] {
      var step := FrameStep(decode)(s, frames[0]);
      var first := ChunksOf(decode, DataLines(frames[0]));
      DataStepAbsorbs(decode, s, DataLines(frames[0]));
      hide DataStep, DataLines, ChunksOf, WithChunk;
      if step.Continue? {
        RunAbsorbs(decode, step.state, frames[1..]);
        WithChunksConcat(s, first, ChunksUsed(decode, step.state, frames[1..]));
      } else {
        assert first + [] == first;
      }
    }
  }

  /** Whatever a stream delivers and however it ends: what the parser holds and what its sink was told are exactly
    * what the pieces received say, up to the point where the parser stopped. */
  lemma StreamSummary(decode: Decode, text: string, ending: Ending)
    ensures var s := Reference(FrameStep(decode), INITIAL, text, ending).state;
            var pieces := PiecesOf(ChunksUsed(decode, INITIAL, FramesHanded(text, ending)));
            && s.assistantText == Contents(pieces) && s.reasoningText == Reasonings(pieces)
            && s.reasoningField == FirstField(pieces) && s.tokenUsage == LastUsage(pieces)
            && s.toolCalls == Assemble(CallDeltas(pieces)) && s.sent == Events(pieces)
  {
    hide FramesHanded, ChunksUsed, ParseFrames, Reference, PiecesOf, WithChunks, WithToolCalls, FrameStep;
    hide Contents, Reasonings, FirstField, LastUsage, CallDeltas, Events;
    ReferenceParsesFrames(FrameStep(decode), INITIAL, text, ending);
    var frames := FramesHanded(text, ending);
    RunAbsorbs(decode, INITIAL, frames);
    ChunksAbsorbed(INITIAL, ChunksUsed(decode, INITIAL, frames));
    var pieces := PiecesOf(ChunksUsed(decode, INITIAL, frames));
    assert "" + Contents(pieces) == Contents(pieces) && "" + Reasonings(pieces) == Reasonings(pieces);
    assert [] + Events(pieces) == Events(pieces);
  }

  // ---------- The finished turn ----------

  lemma {:induction false} FinishedCallsLength(
    decode: DecodeArguments, calls: map<nat, PartialToolCall>, indices: seq<nat>)
    requires forall k <- indices :: k in calls
    requires FinishedCalls(decode, calls, indices).Ok?
    ensures |FinishedCalls(decode, calls, indices).value| == |indices|
  {
    if indices != [] {
      FinishedCallsLength(decode, calls, indices[1..]);
    }
  }

  lemma {:induction false} FinishedCallAt(
    decode: DecodeArguments, calls: map<nat, PartialToolCall>, indices: seq<nat>, i: nat)
    requires forall k <- indices :: k in calls
    requires i < |indices| && FinishedCalls(decode, calls, indices).Ok?
    ensures var finished := FinishedCalls(decode, calls, indices).value;
            i < |finished| && FinishedCall(decode, indices[i], calls[indices[i]]) == Ok(finished[i])
  {
    FinishedCallsLength(decode, calls, indices);
    if i > 0 {
      FinishedCallAt(decode, calls, indices[1..], i - 1);
    }
  }

  /** A turn finished from assembled deltas has one call per index that occurs, in strictly ascending index order.
    * Each has the last id received for its index or the synthesized one, the last name, and as arguments its own
    * fragments decoded together. Text and reasoning are absent exactly when nothing was received, and the usage is
    * the one held. */
  lemma FinishedTurnPerIndex(decode: DecodeArguments, s: ParserState, deltas: seq<ToolCallDelta>)
    requires s.toolCalls == Assemble(deltas) && FinishedTurn(decode, s).Ok?
    ensures var turn, indices := FinishedTurn(decode, s).value, Sorted(s.toolCalls.Keys);
            && Ascending(indices) && |turn.toolCalls| == |indices|
            && (forall k: nat :: k in indices <==> Only(deltas, k) != [])
            && (forall i | 0 <= i < |indices| ::
                  MadeFrom(decode, turn.toolCalls[i], indices[i], Summary(Only(deltas, indices[i]))))
            && (turn.text.None? <==> s.assistantText == "") && turn.text.GetOr("") == s.assistantText
            && (turn.reasoning.None? <==> s.reasoningText == "")
            && (turn.reasoning.Some? ==>
                  turn.reasoning.value.text == s.reasoningText
                  && (s.reasoningField.Some? ==> turn.reasoning.value.field == s.reasoningField.value))
            && turn.tokenUsage == s.tokenUsage
  {
    hide Trim, Summary, Decimal, Sorted, FinishedCalls, Only, Assemble, WithToolCalls;
    var indices := Sorted(s.toolCalls.Keys);
    var finished := FinishedCalls(decode, s.toolCalls, indices);
    forall k: nat ensures k in indices <==> Only(deltas, k) != [] {
      AssembledPerIndex(deltas, k);
    }
    FinishedCallsLength(decode, s.toolCalls, indices);
    forall i | 0 <= i < |indices|
      ensures MadeFrom(decode, finished.value[i], indices[i], Summary(Only(deltas, indices[i])))
    {
      FinishedCallAt(decode, s.toolCalls, indices, i);
      AssembledPerIndex(deltas, indices[i]);
    }
  }

  /** A partial call that cannot be finished: it was never named, or its arguments do not decode. */
  predicate Unfinishable(decode: DecodeArguments, own: PartialToolCall) {
    own.name.None? || (Trim(own.arguments) != "" && decode(own.arguments).None?)
  }

  lemma {:induction false} FinishedCallsIff(
    decode: DecodeArguments, calls: map<nat, PartialToolCall>, indices: seq<nat>)
    requires forall k <- indices :: k in calls
    ensures FinishedCalls(decode, calls, indices).Err? <==> exists k <- indices :: Unfinishable(decode, calls[k])
  {
    hide Trim, Decimal;
    if indices != [] {
      FinishedCallsIff(decode, calls, indices[1..]);
      assert forall k <- indices :: k == indices[0] || k in indices[1..];
    }
  }

  /** Finishing fails exactly when the deltas of some index never name a call or give arguments that do not decode. */
  lemma RefusedIff(decode: DecodeArguments, s: ParserState, deltas: seq<ToolCallDelta>)
    requires s.toolCalls == Assemble(deltas)
    ensures FinishedTurn(decode, s).Err? <==>
            exists k: nat :: Only(deltas, k) != [] && Unfinishable(decode, Summary(Only(deltas, k)))
  {
    hide Summary, Sorted, FinishedCalls, Only, Assemble, WithToolCalls, Unfinishable;
    FinishedCallsIff(decode, s.toolCalls, Sorted(s.toolCalls.Keys));
    forall k: nat
      ensures k in s.toolCalls <==> Only(deltas, k) != []
      ensures k in s.toolCalls ==> s.toolCalls[k] == Summary(Only(deltas, k))
    {
      AssembledPerIndex(deltas, k);
    }
    var indices := Sorted(s.toolCalls.Keys);
    if k: nat :| k in indices && Unfinishable(decode, s.toolCalls[k]) {
      assert Only(deltas, k) != [] && Unfinishable(decode, Summary(Only(deltas, k)));
    }
    if k: nat :| Only(deltas, k) != [] && Unfinishable(decode, Summary(Only(deltas, k))) {
      assert k in indices && Unfinishable(decode, s.toolCalls[k]);
    }
  }

  /** The call carries the id, name and arguments of its own deltas. */
  predicate MadeFrom(decode: DecodeArguments, call: ToolCall, index: nat, own: PartialToolCall) {
    && call.id == own.id.GetOr("call_stream_" + Decimal(index))
    && own.name == Some(call.name)
    && (if Trim(own.arguments) == "" then call.arguments == Object(map[])
        else decode(own.arguments) == Some(call.arguments))
  }

  // ---------- The parser object ----------

  class EventSink {
    var events: seq<StreamEvent>

    constructor ()
      ensures events == []
    {
      events := [];
    }

    method Event(event: StreamEvent)
      modifies this
      ensures events == old(events) + [event]
    {
      events := events + [event];
    }
  }

  class ChatCompletionStreamParser {
    var assistantText: string
    var reasoningText: string
    var reasoningField: Option<string>
    var tokenUsage: Option<TokenUsage>
    var toolCalls: map<nat, PartialToolCall>
    var done: bool

    function View(sink: EventSink): ParserState
      reads this, sink
    {
      ParserState(assistantText, reasoningText, reasoningField, tokenUsage, toolCalls, done, sink.events)
    }

    constructor ()
      ensures assistantText == "" && reasoningText == "" && reasoningField == None
      ensures tokenUsage == None && toolCalls == map[] && !done
    {
      assistantText, reasoningText, reasoningField := "", "", None;
      tokenUsage, toolCalls, done := None, map[], false;
    }

    method ApplyReasoning(fields: seq<(string, string)>, sink: EventSink)
      modifies this, sink
      ensures View(sink) == WithReasoning(old(View(sink)), fields)
    {
      for i := 0 to |fields|
        invariant WithReasoning(View(sink), fields[i..]) == WithReasoning(old(View(sink)), fields)
      {
        var (field, text) := fields[i];
        if reasoningField.None? {
          reasoningField := Some(field);
        }
        reasoningText := reasoningText + text;
        sink.Event(ReasoningDelta(text));
        assert fields[i..][1..] == fields[i + 1..];
      }
    }

    method ApplyToolCalls(deltas: seq<ToolCallDelta>)
      modifies `toolCalls
      ensures toolCalls == WithToolCalls(old(toolCalls), deltas)
    {
      for i := 0 to |deltas|
        invariant WithToolCalls(toolCalls, deltas[i..]) == WithToolCalls(old(toolCalls), deltas)
      {
        var call := deltas[i];
        var partial := if call.index in toolCalls then toolCalls[call.index] else PartialToolCall(None, None, "");
        assert partial.arguments + "" == partial.arguments;
        if call.id.Some? {
          partial := partial.(id := call.id);
        }
        if call.function_.Some? {
          if call.function_.value.name.Some? {
            partial := partial.(name := call.function_.value.name);
          }
          if call.function_.value.arguments.Some? {
            partial := partial.(arguments := partial.arguments + call.function_.value.arguments.value);
          }
        }
        assert deltas[i..][1..] == deltas[i + 1..];
        assert toolCalls[call.index := partial] == WithToolCall(toolCalls, call);
        toolCalls := toolCalls[call.index := partial];
      }
    }

    method ApplyDelta(delta: Delta, sink: EventSink)
      modifies this, sink
      ensures View(sink) == WithDelta(old(View(sink)), delta)
    {
      hide WithReasoning, WithToolCalls, ReasoningFields;
      ApplyReasoning(ReasoningFields(delta), sink);
      if delta.content.Some? && delta.content.value != "" {
        assistantText := assistantText + delta.content.value;
        sink.Event(AssistantTextDelta(delta.content.value));
      }
      ApplyToolCalls(delta.toolCalls);
    }

    method ApplyChoices(choices: seq<Choice>, sink: EventSink)
      modifies this, sink
      ensures View(sink) == WithChoices(old(View(sink)), choices)
    {
      hide WithDelta;
      for i := 0 to |choices|
        invariant WithChoices(View(sink), choices[i..]) == WithChoices(old(View(sink)), choices)
      {
        if choices[i].usage.Some? {
          tokenUsage := choices[i].usage;
        }
        ApplyDelta(choices[i].delta, sink);
        if choices[i].finished {
          done := true;
        }
        assert choices[i..][1..] == choices[i + 1..];
      }
    }

    /** `Ok(true)` stops the stream, `Err` is a data line that does not decode. */
    method ProcessFrame(decode: Decode, frame: string, sink: EventSink) returns (r: Result<bool, ()>)
      modifies this, sink
      ensures FrameStep(decode)(old(View(sink)), frame) ==
              match r
              case Ok(true) => Finished(View(sink))
              case Ok(false) => Continue(View(sink))
              case Err(_) => Failed(View(sink))
    {
      hide DataLines, Trim, WithChoices;
      var lines := DataLines(frame);
      for i := 0 to |lines|
        invariant DataStep(decode, View(sink), lines[i..]) == DataStep(decode, old(View(sink)), lines)
      {
        assert lines[i..][1..] == lines[i + 1..];
        var data := Trim(lines[i]);
        if data == "" {
          continue;
        }
        if data == "[DONE]" {
          done := true;
          return Ok(true);
        }
        var chunk := decode(data);
        if chunk.None? {
          return Err(());
        }
        if chunk.value.usage.Some? {
          tokenUsage := chunk.value.usage;
        }
        ApplyChoices(chunk.value.choices, sink);
      }
      return Ok(done);
    }

    method FinishToolCalls(decode: DecodeArguments) returns (r: Result<seq<ToolCall>, FinishError>)
      ensures r == FinishedCalls(decode, toolCalls, Sorted(toolCalls.Keys))
    {
      hide FinishedCall, FinishedCalls, After, Sorted, Least;
      var remaining, finished := toolCalls.Keys, [];
      FinishedAfterNothing(decode, toolCalls, Sorted(remaining), []);
      while remaining != {}
        invariant remaining <= toolCalls.Keys
        invariant After(finished, FinishedCalls(decode, toolCalls, Sorted(remaining)))
               == FinishedCalls(decode, toolCalls, Sorted(toolCalls.Keys))
        decreases |remaining|
      {
        ghost var least := Least(remaining);
        assert least in remaining && forall other <- remaining :: least <= other;
        var index: nat :| index in remaining && forall other <- remaining :: index <= other;
        SortedFirst(remaining, index);
        FinishedAfterOne(decode, toolCalls, Sorted(remaining), finished);
        match FinishedCall(decode, index, toolCalls[index]) {
          case Err(error) => return Err(error);
          case Ok(call) => finished := finished + [call];
        }
        remaining := remaining - {index};
      }
      SortedNothing();
      FinishedAfterNothing(decode, toolCalls, [], finished);
      return Ok(finished);
    }

    method Finish(decode: DecodeArguments, sink: EventSink) returns (r: Result<Completion, FinishError>)
      ensures r == FinishedTurn(decode, View(sink))
    {
      var calls := FinishToolCalls(decode);
      if calls.Err? {
        return Err(calls.error);
      }
      return Ok(Completion(
                  if assistantText == "" then None else Some(assistantText),
                  calls.value,
                  if reasoningText == "" then None
                  else Some(Reasoning(reasoningText, reasoningField.GetOr("reasoning_content"))),
                  tokenUsage));
    }
  }

  lemma SortedNothing()
    ensures Sorted({}) == []
  {
  }

  lemma SortedFirst(keys: set<nat>, least: nat)
    requires least in keys && forall k <- keys :: least <= k
    ensures Sorted(keys) == [least] + Sorted(keys - {least})
    ensures Sorted(keys) != [] && Sorted(keys)[0] == least && Sorted(keys)[1..] == Sorted(keys - {least})
  {
    assert Least(keys) == least;
  }

  function After(finished: seq<ToolCall>, r: Result<seq<ToolCall>, FinishError>): Result<seq<ToolCall>, FinishError> {
    if r.Ok? then Ok(finished + r.value) else r
  }

  lemma FinishedAfterNothing(
    decode: DecodeArguments, calls: map<nat, PartialToolCall>, indices: seq<nat>, finished: seq<ToolCall>)
    requires forall k <- indices :: k in calls
    ensures After([], FinishedCalls(decode, calls, indices)) == FinishedCalls(decode, calls, indices)
    ensures After(finished, FinishedCalls(decode, calls, [])) == Ok(finished)
  {
    var r := FinishedCalls(decode, calls, indices);
    assert r.Ok? ==> [] + r.value == r.value;
    assert finished + [] == finished;
  }

  lemma FinishedAfterOne(
    decode: DecodeArguments, calls: map<nat, PartialToolCall>, indices: seq<nat>, finished: seq<ToolCall>)
    requires indices != [] && forall k <- indices :: k in calls
    ensures var first := FinishedCall(decode, indices[0], calls[indices[0]]);
            After(finished, FinishedCalls(decode, calls, indices)) ==
            if first.Err? then Err(first.error)
            else After(finished + [first.value], FinishedCalls(decode, calls, indices[1..]))
  {
    var rest := FinishedCalls(decode, calls, indices[1..]);
    var first := FinishedCall(decode, indices[0], calls[indices[0]]);
    hide FinishedCall;
    if first.Ok? && rest.Ok? {
      assert finished + ([first.value] + rest.value) == finished + [first.value] + rest.value;
    }
  }
}
