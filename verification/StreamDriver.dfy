/** The loop that reads a response body chunk by chunk, decodes it, cuts frames and hands each one to a parser.
  *
  * The parser is any deterministic function from its state and a frame to an outcome; the state includes whatever the
  * parser has sent to its sink. Both streaming clients run this loop.
  */
module StreamDriver {
  import opened Wrappers
  import opened SseFraming
  import opened Text
  import opened Utf8

  /** One element of the response body stream. */
  datatype Read = Chunk(bytes: seq<Byte>) | ReadError

  /** What the parser makes of a frame: go on, stop with the response complete, or stop with an error. */
  datatype Step<S> = Continue(state: S) | Finished(state: S) | Failed(state: S)

  type Parser<!S> = (S, string) -> Step<S>

  datatype Ending = Clean | IncompleteUtf8 | InvalidUtf8 | ReadFailed

  /** `Completed(s)`: the loop goes on to finish the parser in state `s`. */
  datatype Outcome<S> = Completed(state: S) | ParserFailed(state: S) | StreamFailed(state: S, ending: Ending)

  /** Frames cut from a buffer and parsed: either the buffer ran out of whole frames or the loop stopped. */
  datatype Pumped<S> = Idle(state: S, rest: string) | Stopped(outcome: Outcome<S>)

  // ---------- The reference: the whole text at once ----------

  function Pump<S>(parse: Parser<S>, state: S, buffer: string): Pumped<S>
    decreases |buffer|
  {
    match NextFrameBoundary(buffer)
    case None => Idle(state, buffer)
    case Some((end, length)) =>
      match parse(state, buffer[..end])
      case Continue(next) => Pump(parse, next, buffer[end + length..])
      case Finished(next) => Stopped(Completed(next))
      case Failed(next) => Stopped(ParserFailed(next))
  }

  /** What is left at the end of a clean stream is one more frame unless it is blank. */
  function AtEnd<S>(parse: Parser<S>, state: S, rest: string, ending: Ending): Outcome<S> {
    if ending != Clean then StreamFailed(state, ending)
    else if Trim(rest) == "" then Completed(state)
    else match parse(state, rest)
      case Continue(next) => Completed(next)
      case Finished(next) => Completed(next)
      case Failed(next) => ParserFailed(next)
  }

  /** The outcome for a whole text and the way the stream ended after it. */
  function Reference<S>(parse: Parser<S>, state: S, text: string, ending: Ending): Outcome<S> {
    match Pump(parse, state, text)
    case Stopped(outcome) => outcome
    case Idle(next, rest) => AtEnd(parse, next, rest, ending)
  }

  /** The text a body delivers and how it ends, from the bytes received so far as a whole: a chunk that leaves bytes no
    * continuation could repair ends the stream before any of its text is used. */
  function Delivered(body: seq<Read>, seen: seq<Byte>): (string, Ending)
    decreases |body|
  {
    if body == [] then (Decode(seen), if Rest(seen) == [] then Clean else IncompleteUtf8)
    else match body[0]
      case ReadError => (Decode(seen), ReadFailed)
      case Chunk(bytes) =>
        if Acceptable(seen + bytes) then Delivered(body[1..], seen + bytes)
        else (Decode(seen), InvalidUtf8)
  }

  // ---------- Lemmas ----------

  /** Pumping on from where it stopped when more has arrived. */
  function Resumed<S>(parse: Parser<S>, pumped: Pumped<S>, more: string): Pumped<S> {
    match pumped
    case Stopped(outcome) => pumped
    case Idle(next, rest) => Pump(parse, next, rest + more)
  }

  /** Pumping may stop anywhere in the text and resume when more has arrived. */
  lemma {:induction false} PumpResumes<S>(parse: Parser<S>, state: S, buffer: string, more: string)
    ensures Pump(parse, state, buffer + more) == Resumed(parse, Pump(parse, state, buffer), more)
    decreases |buffer|
  {
    if NextFrameBoundary(buffer).Some? {
      var (end, length) := NextFrameBoundary(buffer).value;
      BoundaryIsStable(buffer, more);
      hide NextFrameBoundary;
      assert (buffer + more)[..end] == buffer[..end];
      assert (buffer + more)[end + length..] == buffer[end + length..] + more;
      if parse(state, buffer[..end]).Continue? {
        PumpResumes(parse, parse(state, buffer[..end]).state, buffer[end + length..], more);
      }
    }
  }

  lemma {:induction false} DeliveredExtends(body: seq<Read>, seen: seq<Byte>)
    ensures Decode(seen) <= Delivered(body, seen).0
    decreases |body|
  {
    if body != [] && body[0].Chunk? && Acceptable(seen + body[0].bytes) {
      DecodeConcat(seen, body[0].bytes);
      DeliveredExtends(body[1..], seen + body[0].bytes);
    }
  }

  lemma StoppedEarly<S>(parse: Parser<S>, state: S, body: seq<Read>, seen: seq<Byte>)
    requires Pump(parse, state, Decode(seen)).Stopped?
    ensures var (text, ending) := Delivered(body, seen);
            Reference(parse, state, text, ending) == Pump(parse, state, Decode(seen)).outcome
  {
    DeliveredExtends(body, seen);
    var text := Delivered(body, seen).0;
    hide Decode, Delivered, Pump;
    assert text == Decode(seen) + text[|Decode(seen)|..];
    PumpResumes(parse, state, Decode(seen), text[|Decode(seen)|..]);
  }

  lemma Flushed(seen: seq<Byte>)
    requires Acceptable(seen)
    ensures var pending := Rest(seen) + []; Rest(pending) == Rest(seen) && Decode(pending) == "" && Acceptable(pending)
  {
    RestIsStuck(seen);
    assert Rest(seen) + [] == Rest(seen);
  }

  /** What one chunk does: the bytes held back and the text delivered are those of everything received so far. */
  lemma Received<S>(parse: Parser<S>, initial: S, state: S, buffer: string, seen: seq<Byte>, chunk: seq<Byte>)
    requires Pump(parse, initial, Decode(seen)) == Idle(state, buffer)
    ensures Rest(seen + chunk) == Rest(Rest(seen) + chunk)
    ensures Acceptable(seen + chunk) <==> Extendable(Rest(seen) + chunk)
    ensures Pump(parse, initial, Decode(seen + chunk)) == Pump(parse, state, buffer + Decode(Rest(seen) + chunk))
  {
    DecodeConcat(seen, chunk);
    AcceptableConcat(seen, chunk);
    AcceptableIffExtendable(Rest(seen) + chunk);
    PumpResumes(parse, initial, Decode(seen), Decode(Rest(seen) + chunk));
  }

  lemma NothingSeen<S>(parse: Parser<S>, initial: S)
    ensures Rest([]) == [] && Acceptable([])
    ensures Pump(parse, initial, Decode([])) == Idle(initial, "")
  {
    NothingToDecode();
    hide Decode, Rest;
    assert NextFrameBoundary("").None?;
  }

  // ---------- The frames handed to the parser ----------

  function FramesOf(text: string): seq<string>
    decreases |text|
  {
    match NextFrameBoundary(text)
    case None => []
    case Some((end, length)) => [text[..end]] + FramesOf(text[end + length..])
  }

  function TailOf(text: string): string
    decreases |text|
  {
    match NextFrameBoundary(text)
    case None => text
    case Some((end, length)) => TailOf(text[end + length..])
  }

  function FramesHanded(text: string, ending: Ending): seq<string> {
    FramesOf(text) + if ending == Clean && Trim(TailOf(text)) != "" then [TailOf(text)] else []
  }

  function ParseFrames<S>(parse: Parser<S>, state: S, frames: seq<string>): Step<S>
    decreases |frames|
  {
    if frames == [] then Continue(state)
    else
      var step := parse(state, frames[0]);
      if step.Continue? then ParseFrames(parse, step.state, frames[1..]) else step
  }

  lemma {:induction false} ParseFramesConcat<S>(parse: Parser<S>, state: S, a: seq<string>, b: seq<string>)
    ensures var step := ParseFrames(parse, state, a);
            ParseFrames(parse, state, a + b) == if step.Continue? then ParseFrames(parse, step.state, b) else step
    decreases |a|
  {
    if a == [] {
      assert a + b == b;
    } else {
      assert (a + b)[1..] == a[1..] + b;
      var step := parse(state, a[0]);
      if step.Continue? {
        ParseFramesConcat(parse, step.state, a[1..], b);
      }
    }
  }

  function PumpedBy<S>(step: Step<S>, tail: string): Pumped<S> {
    match step
    case Continue(next) => Idle(next, tail)
    case Finished(next) => Stopped(Completed(next))
    case Failed(next) => Stopped(ParserFailed(next))
  }

  lemma {:induction false} PumpParsesFrames<S>(parse: Parser<S>, state: S, text: string)
    ensures Pump(parse, state, text) == PumpedBy(ParseFrames(parse, state, FramesOf(text)), TailOf(text))
    decreases |text|
  {
    hide NextFrameBoundary;
    if NextFrameBoundary(text).Some? {
      var (end, length) := NextFrameBoundary(text).value;
      assert FramesOf(text)[1..] == FramesOf(text[end + length..]);
      var step := parse(state, text[..end]);
      if step.Continue? {
        PumpParsesFrames(parse, step.state, text[end + length..]);
      }
    }
  }

  /** The loop parses the frames of the text in order, then a non-blank remainder of a clean stream, and nothing after
    * the parser stops. */
  lemma ReferenceParsesFrames<S>(parse: Parser<S>, initial: S, text: string, ending: Ending)
    ensures var step, outcome := ParseFrames(parse, initial, FramesHanded(text, ending)),
                                 Reference(parse, initial, text, ending);
            && outcome.state == step.state
            && (outcome.ParserFailed? <==> step.Failed?)
            && (outcome.StreamFailed? <==> step.Continue? && ending != Clean)
  {
    var tail := if ending == Clean && Trim(TailOf(text)) != "" then [TailOf(text)] else [];
    PumpParsesFrames(parse, initial, text);
    ParseFramesConcat(parse, initial, FramesOf(text), tail);
    hide FramesOf, TailOf, NextFrameBoundary, Trim, Pump;
    if tail != [] {
      assert tail[1..] == [];
    }
  }

  // ---------- The loop ----------

  /** Drains whole frames from the buffer into the parser. */
  method PumpFrames<S>(parse: Parser<S>, start: S, text: string) returns (pumped: Pumped<S>)
    ensures pumped == Pump(parse, start, text)
  {
    hide NextFrameBoundary;
    var state, buffer := start, text;
    var boundary := NextFrameBoundary(buffer);
    while boundary.Some?
      invariant boundary == NextFrameBoundary(buffer)
      invariant Pump(parse, start, text) == Pump(parse, state, buffer)
      decreases |buffer|
    {
      var (end, length) := boundary.value;
      var frame := buffer[..end];
      buffer := buffer[end + length..];
      var step := parse(state, frame);
      state := step.state;
      if !step.Continue? {
        return Stopped(if step.Finished? then Completed(state) else ParserFailed(state));
      }
      boundary := NextFrameBoundary(buffer);
    }
    return Idle(state, buffer);
  }

  /** The end of the body: the bytes held back get one more chance, then what is left of the text is one more frame. */
  method FinishBody<S>(parse: Parser<S>, last: S, rest: string, held: seq<Byte>, ghost seen: seq<Byte>)
    returns (outcome: Outcome<S>)
    requires held == Rest(seen) && Acceptable(seen)
    ensures outcome == AtEnd(parse, last, rest, if held == [] then Clean else IncompleteUtf8)
  {
    hide Decode, Encode, Rest, Acceptable, Extendable, SplitsOneChar, Trim;
    var state, buffer, pending := last, rest, held;
    if pending != [] {
      var ok;
      Flushed(seen);
      AcceptableIffExtendable(pending + []);
      ok, pending, buffer := AppendUtf8Chunk(pending, [], buffer);
      if !ok {
        return StreamFailed(state, InvalidUtf8);
      }
      if pending != [] {
        return StreamFailed(state, IncompleteUtf8);
      }
    }
    if Trim(buffer) != "" {
      var step := parse(state, buffer);
      state := step.state;
      if step.Failed? {
        return ParserFailed(state);
      }
    }
    return Completed(state);
  }

  method Stream<S>(body: seq<Read>, parse: Parser<S>, initial: S) returns (outcome: Outcome<S>)
    ensures var (text, ending) := Delivered(body, []);
            outcome == Reference(parse, initial, text, ending)
  {
    var state, buffer, pending := initial, "", [];
    ghost var seen: seq<Byte> := [];
    NothingSeen(parse, initial);
    hide Decode, Encode, Rest, Acceptable, Extendable, SplitsOneChar, Pump;
    assert body[0..] == body;
    for i := 0 to |body|
      invariant Delivered(body, []) == Delivered(body[i..], seen)
      invariant pending == Rest(seen) && Acceptable(seen)
      invariant Pump(parse, initial, Decode(seen)) == Idle(state, buffer)
    {
      assert body[i..][1..] == body[i + 1..];
      if body[i].ReadError? {
        return StreamFailed(state, ReadFailed);
      }
      var ok;
      Received(parse, initial, state, buffer, seen, body[i].bytes);
      ok, pending, buffer := AppendUtf8Chunk(pending, body[i].bytes, buffer);
      if !ok {
        return StreamFailed(state, InvalidUtf8);
      }
      seen := seen + body[i].bytes;
      var pumped := PumpFrames(parse, state, buffer);
      if pumped.Stopped? {
        StoppedEarly(parse, initial, body[i + 1..], seen);
        return pumped.outcome;
      }
      state, buffer := pumped.state, pumped.rest;
    }
    assert body[|body|..] == [];
    outcome := FinishBody(parse, state, buffer, pending, seen);
  }

  // ---------- Where the network splits the bytes ----------

  predicate Breaks(body: seq<Read>) {
    exists read <- body :: read.ReadError?
  }

  /** The bytes received before the body ends or breaks. */
  function Bytes(body: seq<Read>): seq<Byte> {
    if body == [] || body[0].ReadError? then [] else body[0].bytes + Bytes(body[1..])
  }

  /** The body as one chunk, with its read error if it breaks. */
  function Once(body: seq<Read>): seq<Read> {
    [Chunk(Bytes(body))] + if Breaks(body) then [ReadError] else []
  }

  ghost function Streamed<S>(parse: Parser<S>, initial: S, body: seq<Read>): Outcome<S> {
    var (text, ending) := Delivered(body, []);
    Reference(parse, initial, text, ending)
  }

  lemma FirstBytes(body: seq<Read>)
    requires body != [] && body[0].Chunk?
    ensures Bytes(body) == body[0].bytes + Bytes(body[1..]) && Breaks(body) == Breaks(body[1..])
  {
    assert forall read <- body :: read == body[0] || read in body[1..];
  }

  lemma OnceIsWhole(body: seq<Read>)
    ensures Bytes(Once(body)) == Bytes(body) && Breaks(Once(body)) == Breaks(body)
  {
    var once := Once(body);
    FirstBytes(once);
    assert Breaks(body) ==> once[1..] == [ReadError];
    assert Bytes(once[1..]) == [] && Bytes(body) + [] == Bytes(body);
  }

  lemma {:induction false} DeliveredWhole(body: seq<Read>, seen: seq<Byte>)
    requires Acceptable(seen + Bytes(body))
    ensures var all := seen + Bytes(body);
            Delivered(body, seen) ==
            (Decode(all), if Breaks(body) then ReadFailed else if Rest(all) == [] then Clean else IncompleteUtf8)
    decreases |body|
  {
    hide Acceptable, Decode, Rest;
    if body == [] || body[0].ReadError? {
      assert seen + Bytes(body) == seen;
    } else {
      var next := seen + body[0].bytes;
      FirstBytes(body);
      hide Bytes, Breaks;
      Regroup(seen, body[0].bytes, Bytes(body[1..]));
      if !Acceptable(next) {
        BadIsHopeless(next, Bytes(body[1..]));
      }
      DeliveredWhole(body[1..], next);
    }
  }

  lemma {:induction false} DeliveredInvalid(body: seq<Read>, seen: seq<Byte>)
    requires Acceptable(seen) && !Acceptable(seen + Bytes(body))
    ensures var (text, ending) := Delivered(body, seen);
            ending == InvalidUtf8 && text <= Decode(seen + Bytes(body))
    decreases |body|
  {
    DecodeConcat(seen, Bytes(body));
    hide Decode, Rest, Acceptable;
    assert seen + [] == seen;
    if body != [] && body[0].Chunk? && Acceptable(seen + body[0].bytes) {
      FirstBytes(body);
      hide Bytes;
      Regroup(seen, body[0].bytes, Bytes(body[1..]));
      DeliveredInvalid(body[1..], seen + body[0].bytes);
    }
  }

  /** No encoding error, or none behind a complete frame. */
  ghost predicate Splittable(bytes: seq<Byte>) {
    Extendable(bytes) || NextFrameBoundary(Decode(bytes)).None?
  }

  /** Wherever the network splits a splittable byte stream, the outcome is the one for a single chunk: same parser
    * state, hence same sink events, and same completion or error. A stream cut off inside a character is included,
    * and so is one that ends in a read error. */
  lemma ChunkingDoesNotMatter<S>(parse: Parser<S>, initial: S, body: seq<Read>)
    requires Splittable(Bytes(body))
    ensures Streamed(parse, initial, body) == Streamed(parse, initial, Once(body))
  {
    var bytes := Bytes(body);
    AcceptableIffExtendable(bytes);
    OnceIsWhole(body);
    NothingToDecode();
    assert [] + bytes == bytes;
    hide Acceptable, Decode, Rest, Once, Bytes, Breaks, Delivered;
    if Acceptable(bytes) {
      DeliveredWhole(body, []);
      DeliveredWhole(Once(body), []);
    } else {
      DeliveredInvalid(body, []);
      DeliveredInvalid(Once(body), []);
      NoFrameInPrefix(Decode(bytes), Delivered(body, []).0);
      NoFrameInPrefix(Decode(bytes), Delivered(Once(body), []).0);
    }
  }

  lemma NoFrameInPrefix(text: string, prefix: string)
    requires NextFrameBoundary(text).None? && prefix <= text
    ensures NextFrameBoundary(prefix).None?
  {
    if NextFrameBoundary(prefix).Some? {
      BoundaryIsStable(prefix, text[|prefix|..]);
      assert text == prefix + text[|prefix|..];
    }
  }

  /** A parser that counts the frames handed to it. */
  function CountFrames(count: nat, frame: string): Step<nat> {
    Continue(count + 1)
  }

  lemma {:induction false} CountFramesNeverStops(count: nat, buffer: string)
    ensures Pump(CountFrames, count, buffer).Idle?
    ensures count <= Pump(CountFrames, count, buffer).state
    ensures NextFrameBoundary(buffer).Some? ==> count < Pump(CountFrames, count, buffer).state
    decreases |buffer|
  {
    hide NextFrameBoundary;
    if NextFrameBoundary(buffer).Some? {
      var (end, length) := NextFrameBoundary(buffer).value;
      CountFramesNeverStops(count + 1, buffer[end + length..]);
    }
  }

  lemma SplitAtError(bytes: seq<Byte>)
    ensures var good := Encode(Decode(bytes));
            good + Rest(bytes) == bytes && Decode(good) == Decode(bytes) && Acceptable(good)
  {
    var good := Encode(Decode(bytes));
    assert Rest(good) == [] ==> Acceptable(good);
    hide *;
    NothingIsLost(bytes);
    NothingToDecode();
    EncodeThenDecode(Decode(bytes), []);
    assert good + [] == good && Decode(bytes) + "" == Decode(bytes);
  }

  lemma BytesOfTwo(good: seq<Byte>, bad: seq<Byte>)
    ensures var body := [Chunk(good), Chunk(bad)]; !Breaks(body) && Bytes(body) == good + bad
  {
    var body := [Chunk(good), Chunk(bad)];
    assert body[1..] == [Chunk(bad)] && body[1..][1..] == [];
    assert Bytes(body[1..]) == bad + Bytes([]) == bad;
  }

  lemma DeliveredTwo(good: seq<Byte>, bad: seq<Byte>)
    requires Acceptable(good) && !Acceptable(good + bad)
    ensures Delivered([Chunk(good), Chunk(bad)], []) == (Decode(good), InvalidUtf8)
  {
    hide Acceptable, Decode;
    var body := [Chunk(good), Chunk(bad)];
    assert [] + good == good && body[1..] == [Chunk(bad)];
    assert Delivered(body, []) == Delivered(body[1..], good);
  }

  lemma DeliveredOne(bytes: seq<Byte>)
    requires !Acceptable(bytes)
    ensures Delivered([Chunk(bytes)], []) == ("", InvalidUtf8)
  {
    hide Acceptable;
    assert [] + bytes == bytes && Decode([]) == "";
  }

  lemma CountsDiffer(text: string)
    requires NextFrameBoundary(text).Some?
    ensures Reference(CountFrames, 0, text, InvalidUtf8) != Reference(CountFrames, 0, "", InvalidUtf8)
  {
    CountFramesNeverStops(0, text);
    assert NextFrameBoundary("").None?;
    hide NextFrameBoundary;
  }

  /** The condition above is exact. When an encoding error follows a complete frame, a network that delivers the good
    * prefix first lets the parser see that frame, and one that delivers everything at once does not. */
  lemma ChunkingMattersOtherwise(bytes: seq<Byte>)
    requires !Splittable(bytes)
    ensures exists body :: !Breaks(body) && Bytes(body) == bytes
                        && Streamed(CountFrames, 0, body) != Streamed(CountFrames, 0, [Chunk(bytes)])
  {
    AcceptableIffExtendable(bytes);
    hide Acceptable, Rest, Encode, Decode, Delivered, Bytes, Reference;
    var good, bad := Encode(Decode(bytes)), Rest(bytes);
    SplitAtError(bytes);
    BytesOfTwo(good, bad);
    DeliveredTwo(good, bad);
    DeliveredOne(bytes);
    CountsDiffer(Decode(bytes));
    assert Streamed(CountFrames, 0, [Chunk(good), Chunk(bad)]) != Streamed(CountFrames, 0, [Chunk(bytes)]);
  }
}
