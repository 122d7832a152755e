/** A whole streamed call of either client: the loop over the body, then finishing the parser. */
module StreamedCalls {
  import opened StreamDriver
  import opened Wrappers
  import Chat = ChatCompletionParser
  import Codex = CodexStreamParser

  datatype CallError = StreamBroke(ending: Ending) | FrameRefused | TurnRefused(error: Chat.FinishError)

  /** The result of a call and the deltas sent to the sink. A completed turn is announced to the sink after them. */
  datatype Call<C> = Call(result: Result<C, CallError>, sent: seq<Chat.StreamEvent>)

  ghost function ChatCall(decode: Chat.Decode, arguments: Chat.DecodeArguments, body: seq<Read>)
    : Call<Chat.Completion>
  {
    var outcome := Streamed(Chat.FrameStep(decode), Chat.INITIAL, body);
    Call(
      match outcome
      case Completed(s) =>
        (match Chat.FinishedTurn(arguments, s)
         case Ok(turn) => Ok(turn)
         case Err(error) => Err(TurnRefused(error)))
      case ParserFailed(_) => Err(FrameRefused)
      case StreamFailed(_, ending) => Err(StreamBroke(ending)),
      outcome.state.sent)
  }

  ghost function CodexCall(decode: Codex.Decode, read: Codex.ReadResponse, body: seq<Read>): Call<Codex.Completion> {
    var outcome := Streamed(Codex.FrameStep(decode, read), Codex.INITIAL, body);
    Call(
      match outcome
      case Completed(s) => Ok(Codex.FinishedCompletion(s))
      case ParserFailed(_) => Err(FrameRefused)
      case StreamFailed(_, ending) => Err(StreamBroke(ending)),
      outcome.state.sent)
  }

  /** For a body whose bytes have no encoding error behind a complete frame, the result of a call and what its sink
    * receives depend on the bytes, and on whether reading fails after them, but not on where the network splits
    * them. */
  lemma CallsIgnoreChunking(
    decode: Chat.Decode, arguments: Chat.DecodeArguments, value: Codex.Decode, read: Codex.ReadResponse,
    body: seq<Read>)
    requires Splittable(Bytes(body))
    ensures ChatCall(decode, arguments, body) == ChatCall(decode, arguments, Once(body))
    ensures CodexCall(value, read, body) == CodexCall(value, read, Once(body))
  {
    hide Streamed, Bytes, Once, Splittable;
    hide Chat.FrameStep, Codex.FrameStep, Chat.FinishedTurn, Codex.FinishedCompletion;
    ChunkingDoesNotMatter(Chat.FrameStep(decode), Chat.INITIAL, body);
    ChunkingDoesNotMatter(Codex.FrameStep(value, read), Codex.INITIAL, body);
  }

  /** What a body says, as far as the parser reads it. */
  ghost function PiecesReceived(decode: Chat.Decode, body: seq<Read>): seq<Chat.Piece> {
    var (text, ending) := Delivered(body, []);
    Chat.PiecesOf(Chat.ChunksUsed(decode, Chat.INITIAL, FramesHanded(text, ending)))
  }

  /** One call per index in ascending order, each made from its own deltas. */
  ghost predicate CallsFrom(
    arguments: Chat.DecodeArguments, calls: seq<Chat.ToolCall>, deltas: seq<Chat.ToolCallDelta>)
  {
    exists indices: seq<nat> ::
      && Chat.Ascending(indices) && |indices| == |calls|
      && (forall k: nat :: k in indices <==> Chat.Only(deltas, k) != [])
      && forall i | 0 <= i < |indices| ::
           Chat.MadeFrom(arguments, calls[i], indices[i], Chat.Summary(Chat.Only(deltas, indices[i])))
  }

  /** What a successful chat call returns, in terms of what the body said: all that was said and all that was
    * reasoned, in order, each absent exactly when there was nothing of it; the reasoning under the name of the
    * first field that had any; the last usage reported; and one tool call per index. The sink was told every piece
    * as it came. */
  lemma ChatCallSays(decode: Chat.Decode, arguments: Chat.DecodeArguments, body: seq<Read>)
    requires ChatCall(decode, arguments, body).result.Ok?
    ensures var call, pieces := ChatCall(decode, arguments, body), PiecesReceived(decode, body);
            var turn := call.result.value;
            && turn.text == (if Chat.Contents(pieces) == "" then None else Some(Chat.Contents(pieces)))
            && (turn.reasoning.None? <==> Chat.Reasonings(pieces) == "")
            && (turn.reasoning.Some? ==>
                  turn.reasoning.value.text == Chat.Reasonings(pieces)
                  && Chat.FirstField(pieces) == Some(turn.reasoning.value.field))
            && turn.tokenUsage == Chat.LastUsage(pieces)
            && CallsFrom(arguments, turn.toolCalls, Chat.CallDeltas(pieces))
  {
    var (text, ending) := Delivered(body, []);
    var s := Reference(Chat.FrameStep(decode), Chat.INITIAL, text, ending).state;
    var pieces := PiecesReceived(decode, body);
    ReasonedHasField(pieces);
    hide Delivered, Reference, FramesHanded;
    hide Chat.FrameStep, Chat.Summary, Chat.Only, Chat.Sorted, Chat.PiecesOf, Chat.ChunksUsed, Chat.MadeFrom;
    hide Chat.Contents, Chat.Reasonings, Chat.FirstField, Chat.LastUsage, Chat.CallDeltas, Chat.Events, Chat.Assemble;
    hide Chat.FinishedTurn;
    Chat.StreamSummary(decode, text, ending);
    Chat.FinishedTurnPerIndex(arguments, s, Chat.CallDeltas(pieces));
  }

  lemma {:induction false} ReasonedHasField(pieces: seq<Chat.Piece>)
    ensures Chat.Reasonings(pieces) != "" ==> Chat.FirstField(pieces).Some?
  {
    if pieces != [] {
      ReasonedHasField(pieces[1..]);
    }
  }

  /** However a chat call ends, its sink was told exactly the pieces of text and reasoning received, one by one. */
  lemma ChatSinkHears(decode: Chat.Decode, arguments: Chat.DecodeArguments, body: seq<Read>)
    ensures ChatCall(decode, arguments, body).sent == Chat.Events(PiecesReceived(decode, body))
  {
    var (text, ending) := Delivered(body, []);
    hide Delivered, Reference, FramesHanded;
    hide Chat.FrameStep, Chat.PiecesOf, Chat.ChunksUsed, Chat.Events, Chat.FinishedTurn;
    hide Chat.Contents, Chat.Reasonings, Chat.FirstField, Chat.LastUsage, Chat.CallDeltas, Chat.Assemble;
    Chat.StreamSummary(decode, text, ending);
  }
}
