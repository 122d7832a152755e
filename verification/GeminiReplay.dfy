/** Gemini responses: parsing joins the visible texts and remembers the signed ones; replaying a turn finds the signed
  * texts in the joined text again by greedy search. */
module GeminiReplay {
  import opened JsonValue
  import opened Text
  import opened Wrappers

  datatype FunctionCall = FunctionCall(name: string, args: Json)

  /** A part of a response. */
  datatype ResponsePart = ResponsePart(
    text: Option<string>,
    thought: bool,
    signature: Option<string>,
    functionCall: Option<FunctionCall>)

  /** Redacted blocks are the signed visible texts; the others are thoughts. */
  datatype ReasoningBlock = ReasoningBlock(text: string, signature: Option<string>, redacted: bool)
  datatype ToolCall = ToolCall(index: nat, name: string, arguments: Json, signature: Option<string>)
  datatype Turn = Turn(text: Option<string>, toolCalls: seq<ToolCall>, reasoning: seq<ReasoningBlock>)

  /** A part of a request. */
  datatype RequestPart =
    | TextPart(text: string, signature: Option<string>)
    | ThoughtPart(text: string, signature: Option<string>)
    | CallPart(name: string, args: Json, signature: Option<string>)

  const NEWLINE := "\n"

  // ---------- Parsing ----------

  predicate Visible(part: ResponsePart) {
    part.text.Some? && !part.thought
  }

  predicate SignedVisible(part: ResponsePart) {
    Visible(part) && part.signature.Some?
  }

  function VisibleTexts(parts: seq<ResponsePart>): seq<string> {
    if parts == [] then []
    else (if Visible(parts[0]) then [parts[0].text.value] else []) + VisibleTexts(parts[1..])
  }

  function Blocks(parts: seq<ResponsePart>): seq<ReasoningBlock> {
    if parts == [] then []
    else
      var part := parts[0];
      (if part.text.Some? && (part.thought || part.signature.Some?)
       then [ReasoningBlock(part.text.value, part.signature, !part.thought)] else [])
      + Blocks(parts[1..])
  }

  function Calls(parts: seq<ResponsePart>, index: nat): seq<ToolCall> {
    if parts == [] then []
    else
      var part := parts[0];
      (if part.functionCall.Some?
       then [ToolCall(index, part.functionCall.value.name, part.functionCall.value.args, part.signature)] else [])
      + Calls(parts[1..], index + 1)
  }

  /** `[String]::join("\n")`. */
  function Join(texts: seq<string>): string {
    if texts == [] then ""
    else if |texts| == 1 then texts[0]
    else texts[0] + NEWLINE + Join(texts[1..])
  }

  lemma FirstPart(parts: seq<ResponsePart>, i: nat)
    requires i < |parts|
    ensures VisibleTexts(parts[i..]) ==
            (if Visible(parts[i]) then [parts[i].text.value] else []) + VisibleTexts(parts[i + 1..])
    ensures Blocks(parts[i..]) == Blocks([parts[i]]) + Blocks(parts[i + 1..])
    ensures Calls(parts[i..], i) == Calls([parts[i]], i) + Calls(parts[i + 1..], i + 1)
  {
    assert parts[i..][1..] == parts[i + 1..];
    assert [parts[i]][1..] == [];
  }

  method ParseResponse(parts: seq<ResponsePart>) returns (turn: Turn)
    ensures turn == Parsed(parts)
  {
    hide VisibleTexts, Calls, Blocks, Join;
    var texts, calls, reasoning := [], [], [];
    assert parts[0..] == parts;
    for i := 0 to |parts|
      invariant VisibleTexts(parts) == texts + VisibleTexts(parts[i..])
      invariant Calls(parts, 0) == calls + Calls(parts[i..], i)
      invariant Blocks(parts) == reasoning + Blocks(parts[i..])
    {
      FirstPart(parts, i);
      var part := parts[i];
      ghost var t, c, r := texts, calls, reasoning;
      if part.text.Some? {
        if part.thought {
          reasoning := reasoning + [ReasoningBlock(part.text.value, part.signature, false)];
        } else {
          texts := texts + [part.text.value];
          if part.signature.Some? {
            reasoning := reasoning + [ReasoningBlock(part.text.value, part.signature, true)];
          }
        }
      }
      if part.functionCall.Some? {
        calls := calls + [ToolCall(i, part.functionCall.value.name, part.functionCall.value.args, part.signature)];
      }
      OnePart(part, i);
      Regroup(t, if Visible(part) then [part.text.value] else [], VisibleTexts(parts[i + 1..]));
      Regroup(c, Calls([part], i), Calls(parts[i + 1..], i + 1));
      Regroup(r, Blocks([part]), Blocks(parts[i + 1..]));
    }
    NoParts(|parts|);
    assert parts[|parts|..] == [];
    assert texts + [] == texts && calls + [] == calls && reasoning + [] == reasoning;
    turn := Turn(if texts == [] then None else Some(Join(texts)), calls, reasoning);
  }

  lemma OnePart(part: ResponsePart, i: nat)
    ensures Blocks([part]) ==
            if part.text.Some? && (part.thought || part.signature.Some?)
            then [ReasoningBlock(part.text.value, part.signature, !part.thought)] else []
    ensures Calls([part], i) ==
            if part.functionCall.Some?
            then [ToolCall(i, part.functionCall.value.name, part.functionCall.value.args, part.signature)] else []
  {
    assert [part][1..] == [];
  }

  lemma NoParts(i: nat)
    ensures VisibleTexts([]) == [] && Blocks([]) == [] && Calls([], i) == []
  {
  }

  function Parsed(parts: seq<ResponsePart>): Turn {
    var texts := VisibleTexts(parts);
    Turn(if texts == [] then None else Some(Join(texts)), Calls(parts, 0), Blocks(parts))
  }

  // ---------- Replaying ----------

  function TrimNewlinesStart(text: string): string {
    if text != "" && text[0] == '\n' then TrimNewlinesStart(text[1..]) else text
  }

  function TrimNewlinesEnd(text: string): string {
    if text != "" && text[|text| - 1] == '\n' then TrimNewlinesEnd(text[..|text| - 1]) else text
  }

  /** The text between signed texts, without the newlines around it and not at all when nothing is left. */
  function Unsigned(text: string): seq<RequestPart> {
    var trimmed := TrimNewlinesEnd(TrimNewlinesStart(text));
    if trimmed == "" then [] else [TextPart(trimmed, None)]
  }

  function WithoutNewline(text: string): string {
    if text != "" && text[0] == '\n' then text[1..] else text
  }

  function VisibleParts(remaining: string, signed: seq<ReasoningBlock>): seq<RequestPart>
    decreases |signed|
  {
    if signed == [] then Unsigned(remaining)
    else
      var own := [TextPart(signed[0].text, signed[0].signature)];
      match Find(remaining, signed[0].text)
      case Some(i) =>
        Unsigned(remaining[..i]) + own
        + VisibleParts(WithoutNewline(remaining[i + |signed[0].text|..]), signed[1..])
      case None => own + VisibleParts(remaining, signed[1..])
  }

  lemma NextVisibleParts(remaining: string, signed: seq<ReasoningBlock>)
    requires signed != []
    ensures var own, found := [TextPart(signed[0].text, signed[0].signature)], Find(remaining, signed[0].text);
            if found.None? then VisibleParts(remaining, signed) == own + VisibleParts(remaining, signed[1..])
            else
              && found.value + |signed[0].text| <= |remaining|
              && VisibleParts(remaining, signed) ==
                 Unsigned(remaining[..found.value]) + own
                 + VisibleParts(WithoutNewline(remaining[found.value + |signed[0].text|..]), signed[1..])
  {
    hide Unsigned, WithoutNewline, Find;
  }

  method PushVisibleTextParts(parts: seq<RequestPart>, content: string, signed: seq<ReasoningBlock>)
    returns (pushed: seq<RequestPart>)
    ensures pushed == parts + VisibleParts(content, signed)
  {
    hide Unsigned, VisibleParts, WithoutNewline;
    pushed := parts;
    var remaining := content;
    assert signed[0..] == signed;
    for k := 0 to |signed|
      invariant pushed + VisibleParts(remaining, signed[k..]) == parts + VisibleParts(content, signed)
    {
      var block := signed[k];
      assert signed[k..][1..] == signed[k + 1..] && signed[k..][0] == block;
      NextVisibleParts(remaining, signed[k..]);
      match Find(remaining, block.text) {
        case Some(i) =>
          var before, after := remaining[..i], WithoutNewline(remaining[i + |block.text|..]);
          Regroup(pushed, Unsigned(before) + [TextPart(block.text, block.signature)],
                  VisibleParts(after, signed[k + 1..]));
          Regroup(pushed, Unsigned(before), [TextPart(block.text, block.signature)]);
          pushed := pushed + Unsigned(before);
          pushed := pushed + [TextPart(block.text, block.signature)];
          remaining := after;
        case None =>
          Regroup(pushed, [TextPart(block.text, block.signature)], VisibleParts(remaining, signed[k + 1..]));
          pushed := pushed + [TextPart(block.text, block.signature)];
      }
    }
    assert signed[|signed|..] == [];
    NothingSigned(remaining);
    pushed := pushed + Unsigned(remaining);
  }

  lemma NothingSigned(remaining: string)
    ensures VisibleParts(remaining, []) == Unsigned(remaining)
  {
  }

  predicate Resent(block: ReasoningBlock) {
    block.redacted && block.text != ""
  }

  function ResentBlocks(blocks: seq<ReasoningBlock>): seq<ReasoningBlock> {
    if blocks == [] then []
    else (if Resent(blocks[0]) then [blocks[0]] else []) + ResentBlocks(blocks[1..])
  }

  function FirstRedactedSignature(blocks: seq<ReasoningBlock>): Option<string> {
    if blocks == [] then None
    else if blocks[0].redacted && blocks[0].signature.Some? then blocks[0].signature
    else FirstRedactedSignature(blocks[1..])
  }

  /** The text parts with which a turn's visible content is sent back. */
  function ReplayedText(content: string, blocks: seq<ReasoningBlock>): seq<RequestPart> {
    var signed := ResentBlocks(blocks);
    if signed != [] then VisibleParts(content, signed)
    else if content != "" then [TextPart(content, FirstRedactedSignature(blocks))]
    else []
  }

  function Thoughts(blocks: seq<ReasoningBlock>): seq<RequestPart> {
    if blocks == [] then []
    else (if !blocks[0].redacted && blocks[0].text != ""
          then [ThoughtPart(blocks[0].text, blocks[0].signature)] else [])
         + Thoughts(blocks[1..])
  }

  function CallParts(calls: seq<ToolCall>): seq<RequestPart> {
    if calls == [] then []
    else [CallPart(calls[0].name, calls[0].arguments, calls[0].signature)] + CallParts(calls[1..])
  }

  /** The assistant branch of the request builder: `None` is its error for a message with nothing to send. */
  function Replayed(turn: Turn): Option<seq<RequestPart>> {
    var text := ReplayedText(turn.text.GetOr(""), turn.reasoning);
    var parts := text + Thoughts(turn.reasoning) + CallParts(turn.toolCalls);
    if parts == [] then None else Some(parts)
  }

  // ---------- What a replay must achieve ----------

  /** The (text, signature) pairs of the non-empty signed visible parts of a response, in order. */
  function SignedTexts(parts: seq<ResponsePart>): seq<(string, Option<string>)> {
    if parts == [] then []
    else
      var part := parts[0];
      (if SignedVisible(part) && part.text.value != "" then [(part.text.value, part.signature)] else [])
      + SignedTexts(parts[1..])
  }

  function SignedSent(parts: seq<RequestPart>): seq<(string, Option<string>)> {
    if parts == [] then []
    else
      (if parts[0].TextPart? && parts[0].signature.Some? then [(parts[0].text, parts[0].signature)] else [])
      + SignedSent(parts[1..])
  }

  /** The visible text parts of a request, spelled out. */
  function Spelled(parts: seq<RequestPart>): string {
    if parts == [] then ""
    else (if parts[0].TextPart? then parts[0].text else "") + Spelled(parts[1..])
  }

  /** `kept` is `full` with some newline characters left out and nothing else changed. */
  ghost predicate DropsNewlines(full: string, kept: string)
    decreases |full|
  {
    if full == "" then kept == ""
    else
      || (kept != "" && kept[0] == full[0] && DropsNewlines(full[1..], kept[1..]))
      || (full[0] == '\n' && DropsNewlines(full[1..], kept))
  }

  lemma {:induction false} DropsNothing(text: string)
    ensures DropsNewlines(text, text)
  {
    if text != "" {
      DropsNothing(text[1..]);
    }
  }

  lemma {:induction false} DropsConcat(full: string, kept: string, full': string, kept': string)
    requires DropsNewlines(full, kept) && DropsNewlines(full', kept')
    ensures DropsNewlines(full + full', kept + kept')
    decreases |full|
  {
    if full == "" {
      assert full + full' == full' && kept + kept' == kept';
    } else {
      assert (full + full')[1..] == full[1..] + full';
      if kept != "" && kept[0] == full[0] && DropsNewlines(full[1..], kept[1..]) {
        DropsConcat(full[1..], kept[1..], full', kept');
        assert (kept + kept')[1..] == kept[1..] + kept';
      } else {
        DropsConcat(full[1..], kept, full', kept');
      }
    }
  }

  lemma {:induction false} DropsAtStart(text: string)
    ensures DropsNewlines(text, TrimNewlinesStart(text))
  {
    if text != "" && text[0] == '\n' {
      DropsAtStart(text[1..]);
    } else {
      DropsNothing(text);
    }
  }

  lemma {:induction false} DropsAtEnd(text: string)
    ensures DropsNewlines(text, TrimNewlinesEnd(text))
  {
    if text != "" && text[|text| - 1] == '\n' {
      DropsAtEnd(text[..|text| - 1]);
      assert DropsNewlines("\n", "");
      DropsConcat(text[..|text| - 1], TrimNewlinesEnd(text), "\n", "");
      assert text == text[..|text| - 1] + "\n" && TrimNewlinesEnd(text) + "" == TrimNewlinesEnd(text);
    } else {
      DropsNothing(text);
    }
  }

  lemma {:induction false} DropsTransitive(a: string, b: string, c: string)
    requires DropsNewlines(a, b) && DropsNewlines(b, c)
    ensures DropsNewlines(a, c)
    decreases |a|
  {
    if a != "" {
      if b != "" && b[0] == a[0] && DropsNewlines(a[1..], b[1..]) {
        if c != "" && c[0] == b[0] && DropsNewlines(b[1..], c[1..]) {
          DropsTransitive(a[1..], b[1..], c[1..]);
        } else {
          DropsTransitive(a[1..], b[1..], c);
        }
      } else {
        DropsTransitive(a[1..], b, c);
      }
    }
  }

  lemma UnsignedSpells(text: string)
    ensures DropsNewlines(text, Spelled(Unsigned(text)))
    ensures SignedSent(Unsigned(text)) == []
  {
    var start := TrimNewlinesStart(text);
    DropsAtStart(text);
    DropsAtEnd(start);
    DropsTransitive(text, start, TrimNewlinesEnd(start));
    assert TrimNewlinesEnd(start) + "" == TrimNewlinesEnd(start);
    assert Unsigned(text) != [] ==> Unsigned(text)[1..] == [];
  }

  // ---------- Every signed text is found ----------

  function Skipped(remaining: string, text: string): string {
    match Find(remaining, text)
    case Some(i) => remaining[..i]
    case None => ""
  }

  function Onward(remaining: string, text: string): string {
    match Find(remaining, text)
    case Some(i) => WithoutNewline(remaining[i + |text|..])
    case None => remaining
  }

  /** Every block is found when its turn comes in the greedy search. */
  ghost predicate AllFound(remaining: string, signed: seq<ReasoningBlock>)
    decreases |signed|
  {
    signed == []
    || (Find(remaining, signed[0].text).Some?
        && AllFound(Onward(remaining, signed[0].text), signed[1..]))
  }

  ghost predicate HasSuffix(text: string, suffix: string) {
    |suffix| <= |text| && text[|text| - |suffix|..] == suffix
  }

  /** Matching a text leftmost, from anywhere at or before its own place, leaves everything behind its own place. */
  lemma LeftmostMatchLeavesRest(remaining: string, text: string, rest: string)
    requires HasSuffix(remaining, text + rest)
    ensures Find(remaining, text).Some?
    ensures HasSuffix(remaining[Find(remaining, text).value + |text|..], rest)
  {
    var own := |remaining| - |text + rest|;
    assert remaining[own..] == text + rest;
    assert remaining[own..own + |text|] == remaining[own..][..|text|] == text;
    assert At(remaining, text, own);
    var i := Find(remaining, text).value;
    assert i <= own;
    var left := remaining[i + |text|..];
    assert left[|left| - |rest|..] == remaining[own..][|text|..] == rest;
  }

  /** The separator and the texts behind the first one. */
  function Behind(texts: seq<string>): string {
    if texts == [] then "" else NEWLINE + Join(texts)
  }

  lemma StripLeavesRest(left: string, texts: seq<string>)
    requires HasSuffix(left, Behind(texts))
    ensures HasSuffix(WithoutNewline(left), Join(texts))
  {
    if texts != [] {
      var rest := Join(texts);
      assert left[|left| - |rest| - 1..] == NEWLINE + rest;
      assert left[|left| - |rest| - 1..][1..] == rest;
      if |left| == |rest| + 1 {
        assert left[0] == '\n';
      }
    }
  }

  lemma JoinFirst(text: string, texts: seq<string>)
    ensures Join([text] + texts) == text + Behind(texts)
  {
    assert ([text] + texts)[1..] == texts;
    assert text + "" == text;
  }

  lemma SuffixOfSuffix(remaining: string, text: string, texts: seq<string>)
    requires HasSuffix(remaining, text + Behind(texts))
    ensures HasSuffix(remaining, Join(texts))
  {
    var joined := Join(texts);
    NothingJoined();
    var whole := text + Behind(texts);
    hide Join;
    assert whole[|whole| - |joined|..] == joined;
    assert remaining[|remaining| - |whole|..][|whole| - |joined|..] == remaining[|remaining| - |joined|..];
  }

  /** One text behind, and the rest of the content is still ahead, whether or not the text is searched for. */
  lemma Advance(remaining: string, text: string, texts: seq<string>)
    requires HasSuffix(remaining, Join([text] + texts))
    ensures Find(remaining, text).Some?
    ensures HasSuffix(Onward(remaining, text), Join(texts)) && HasSuffix(remaining, Join(texts))
  {
    hide Join, Behind, Find, HasSuffix, WithoutNewline;
    JoinFirst(text, texts);
    LeftmostMatchLeavesRest(remaining, text, Behind(texts));
    StripLeavesRest(remaining[Find(remaining, text).value + |text|..], texts);
    SuffixOfSuffix(remaining, text, texts);
  }

  lemma {:induction false} SignedTextsFound(parts: seq<ResponsePart>, remaining: string)
    requires HasSuffix(remaining, Join(VisibleTexts(parts)))
    ensures AllFound(remaining, ResentBlocks(Blocks(parts)))
    decreases |parts|
  {
    if parts == [] {
      assert ResentBlocks(Blocks(parts)) == [];
    } else {
      var part, texts := parts[0], VisibleTexts(parts[1..]);
      assert VisibleTexts(parts) == (if Visible(part) then [part.text.value] else []) + texts;
      hide VisibleTexts, Blocks, ResentBlocks, HasSuffix, Join, Behind, WithoutNewline, Find, AllFound;
      ResentOfFirst(parts);
      var all, signed := ResentBlocks(Blocks(parts)), ResentBlocks(Blocks(parts[1..]));
      if !Visible(part) {
        assert VisibleTexts(parts) == texts && all == signed;
        SignedTextsFound(parts[1..], remaining);
      } else {
        Advance(remaining, part.text.value, texts);
        if part.signature.Some? && part.text.value != "" {
          SignedTextsFound(parts[1..], Onward(remaining, part.text.value));
          AllFoundFirst(remaining, ReasoningBlock(part.text.value, part.signature, true), signed);
        } else {
          assert all == signed;
          SignedTextsFound(parts[1..], remaining);
        }
      }
    }
  }

  lemma AllFoundFirst(remaining: string, block: ReasoningBlock, signed: seq<ReasoningBlock>)
    ensures AllFound(remaining, [block] + signed)
       <==> Find(remaining, block.text).Some? && AllFound(Onward(remaining, block.text), signed)
  {
    assert ([block] + signed)[1..] == signed;
  }

  lemma ResentOfFirst(parts: seq<ResponsePart>)
    requires parts != []
    ensures var part := parts[0];
            ResentBlocks(Blocks(parts)) ==
            (if SignedVisible(part) && part.text.value != ""
             then [ReasoningBlock(part.text.value, part.signature, true)] else [])
            + ResentBlocks(Blocks(parts[1..]))
  {
    var part := parts[0];
    if part.text.Some? && (part.thought || part.signature.Some?) {
      assert Blocks(parts)[1..] == Blocks(parts[1..]);
    } else {
      assert Blocks(parts) == Blocks(parts[1..]);
    }
  }

  // ---------- The round trip ----------

  function Pairs(signed: seq<ReasoningBlock>): seq<(string, Option<string>)> {
    if signed == [] then [] else [(signed[0].text, signed[0].signature)] + Pairs(signed[1..])
  }

  lemma {:induction false} PairsOfParsed(parts: seq<ResponsePart>)
    ensures Pairs(ResentBlocks(Blocks(parts))) == SignedTexts(parts)
    ensures forall block <- ResentBlocks(Blocks(parts)) :: block.signature.Some?
  {
    if parts != [] {
      PairsOfParsed(parts[1..]);
      ResentOfFirst(parts);
      var signed := ResentBlocks(Blocks(parts));
      if SignedVisible(parts[0]) && parts[0].text.value != "" {
        assert signed[1..] == ResentBlocks(Blocks(parts[1..]));
      } else {
        assert signed == ResentBlocks(Blocks(parts[1..]));
      }
    }
  }

  lemma {:induction false} SentConcat(a: seq<RequestPart>, b: seq<RequestPart>)
    ensures SignedSent(a + b) == SignedSent(a) + SignedSent(b)
    ensures Spelled(a + b) == Spelled(a) + Spelled(b)
  {
    if a == [] {
      assert a + b == b;
    } else {
      assert (a + b)[1..] == a[1..] + b && (a + b)[0] == a[0];
      SentConcat(a[1..], b);
      Regroup(if a[0].TextPart? && a[0].signature.Some? then [(a[0].text, a[0].signature)] else [],
              SignedSent(a[1..]), SignedSent(b));
      Regroup(if a[0].TextPart? then a[0].text else "", Spelled(a[1..]), Spelled(b));
    }
  }

  lemma OwnPart(block: ReasoningBlock)
    ensures var own := [TextPart(block.text, block.signature)];
            && Spelled(own) == block.text
            && SignedSent(own) == if block.signature.Some? then [(block.text, block.signature)] else []
  {
    assert [TextPart(block.text, block.signature)][1..] == [];
    assert block.text + "" == block.text;
  }

  lemma VisiblePartsStep(remaining: string, signed: seq<ReasoningBlock>)
    requires signed != []
    ensures var text := signed[0].text;
            var rest := VisibleParts(Onward(remaining, text), signed[1..]);
            && SignedSent(VisibleParts(remaining, signed)) ==
               (if signed[0].signature.Some? then [(text, signed[0].signature)] else []) + SignedSent(rest)
            && Spelled(VisibleParts(remaining, signed)) ==
               Spelled(Unsigned(Skipped(remaining, text))) + text + Spelled(rest)
  {
    hide WithoutNewline, SignedSent, Spelled;
    var text := signed[0].text;
    var before, own := Unsigned(Skipped(remaining, text)), [TextPart(text, signed[0].signature)];
    var rest := VisibleParts(Onward(remaining, text), signed[1..]);
    assert VisibleParts(remaining, signed) == before + own + rest by {
      assert Unsigned("") == [];
    }
    hide VisibleParts, Unsigned;
    UnsignedSpells(Skipped(remaining, text));
    OwnPart(signed[0]);
    SentConcat(before, own);
    SentConcat(before + own, rest);
    assert [] + SignedSent(own) == SignedSent(own);
  }

  lemma {:induction false} SignedSentOnce(remaining: string, signed: seq<ReasoningBlock>)
    requires forall block <- signed :: block.signature.Some?
    ensures SignedSent(VisibleParts(remaining, signed)) == Pairs(signed)
    decreases |signed|
  {
    if signed == [] {
      UnsignedSpells(remaining);
    } else {
      VisiblePartsStep(remaining, signed);
      SignedSentOnce(Onward(remaining, signed[0].text), signed[1..]);
    }
  }

  lemma DropsAround(before: string, kept: string, text: string, left: string, rest: string)
    requires DropsNewlines(before, kept) && DropsNewlines(left, rest)
    ensures DropsNewlines(before + text + left, kept + text + rest)
  {
    hide DropsNewlines;
    DropsNothing(text);
    DropsConcat(before, kept, text, text);
    DropsConcat(before + text, kept + text, left, rest);
  }

  lemma SkippedThenOnward(remaining: string, text: string) returns (left: string)
    requires Find(remaining, text).Some?
    ensures remaining == Skipped(remaining, text) + text + left && Onward(remaining, text) == WithoutNewline(left)
  {
    left := remaining[Find(remaining, text).value + |text|..];
  }

  lemma {:induction false} FoundSpells(remaining: string, signed: seq<ReasoningBlock>)
    requires AllFound(remaining, signed)
    ensures DropsNewlines(remaining, Spelled(VisibleParts(remaining, signed)))
    decreases |signed|
  {
    if signed == [] {
      UnsignedSpells(remaining);
    } else {
      hide *;
      var block, tail := signed[0], signed[1..];
      assert signed == [block] + tail;
      AllFoundFirst(remaining, block, tail);
      var left := SkippedThenOnward(remaining, block.text);
      FoundSpells(Onward(remaining, block.text), tail);
      VisiblePartsStep(remaining, signed);
      StripDrops(left, Spelled(VisibleParts(Onward(remaining, block.text), tail)));
      UnsignedSpells(Skipped(remaining, block.text));
      DropsAround(Skipped(remaining, block.text), Spelled(Unsigned(Skipped(remaining, block.text))), block.text,
                  left, Spelled(VisibleParts(Onward(remaining, block.text), tail)));
    }
  }

  lemma StripDrops(left: string, kept: string)
    requires DropsNewlines(WithoutNewline(left), kept)
    ensures DropsNewlines(left, kept)
  {
  }

  lemma {:induction false} ThoughtsSpellNothing(blocks: seq<ReasoningBlock>)
    ensures Spelled(Thoughts(blocks)) == "" && SignedSent(Thoughts(blocks)) == []
  {
    if blocks != [] {
      ThoughtsSpellNothing(blocks[1..]);
      var own := if !blocks[0].redacted && blocks[0].text != ""
                 then [ThoughtPart(blocks[0].text, blocks[0].signature)] else [];
      assert own != [] ==> own[1..] == [];
      SentConcat(own, Thoughts(blocks[1..]));
    }
  }

  lemma {:induction false} CallsSpellNothing(calls: seq<ToolCall>)
    ensures Spelled(CallParts(calls)) == "" && SignedSent(CallParts(calls)) == []
  {
    if calls != [] {
      CallsSpellNothing(calls[1..]);
      assert CallParts(calls)[1..] == CallParts(calls[1..]);
    }
  }

  lemma ReplayedTextRoundTrip(parts: seq<ResponsePart>)
    ensures var turn := Parsed(parts);
            var content := turn.text.GetOr("");
            var sent := ReplayedText(content, turn.reasoning);
            && DropsNewlines(content, Spelled(sent))
            && (SignedTexts(parts) != [] ==>
                  AllFound(content, ResentBlocks(turn.reasoning)) && SignedSent(sent) == SignedTexts(parts))
            && (SignedTexts(parts) == [] ==> |sent| <= 1 && Spelled(sent) == content)
  {
    var texts, content := VisibleTexts(parts), Join(VisibleTexts(parts));
    var signed := ResentBlocks(Blocks(parts));
    PairsOfParsed(parts);
    hide Blocks, ResentBlocks, VisibleTexts, SignedTexts, VisibleParts, AllFound, FirstRedactedSignature, DropsNewlines;
    if signed != [] {
      assert content[|content| - |content|..] == content;
      SignedTextsFound(parts, content);
      FoundSpells(content, signed);
      SignedSentOnce(content, signed);
    } else {
      DropsNothing(content);
      var sent := ReplayedText(content, Blocks(parts));
      assert |sent| <= 1 && (sent != [] ==> sent[1..] == []);
      assert content + "" == content;
    }
  }

  /** Replaying a parsed response sends every non-empty signed visible text exactly once, with its own signature and
    * in order; the greedy search finds each of them; and the text parts together spell the visible content with
    * nothing but newline characters left out. Without a signed text they spell it unchanged. */
  lemma ReplayRoundTrip(parts: seq<ResponsePart>)
    ensures var turn := Parsed(parts);
            var content, sent := turn.text.GetOr(""), Replayed(turn).GetOr([]);
            && DropsNewlines(content, Spelled(sent))
            && (SignedTexts(parts) != [] ==>
                  AllFound(content, ResentBlocks(turn.reasoning)) && SignedSent(sent) == SignedTexts(parts))
            && (SignedTexts(parts) == [] ==> Spelled(sent) == content)
  {
    var turn := Parsed(parts);
    var text := ReplayedText(turn.text.GetOr(""), turn.reasoning);
    ReplayedTextRoundTrip(parts);
    ThoughtsSpellNothing(turn.reasoning);
    CallsSpellNothing(turn.toolCalls);
    SentConcat(text, Thoughts(turn.reasoning));
    SentConcat(text + Thoughts(turn.reasoning), CallParts(turn.toolCalls));
    hide Parsed, ReplayedText, Thoughts, CallParts, DropsNewlines, AllFound, SignedTexts, SignedSent, Spelled;
    assert Spelled(text) + "" + "" == Spelled(text) && SignedSent(text) + [] + [] == SignedSent(text);
  }

  // ---------- Part boundaries ----------

  predicate SignedAndResent(part: ResponsePart) {
    SignedVisible(part) && part.text.value != ""
  }

  /** The joined texts before a signed text, with the separator. */
  function Before(pending: seq<string>): string {
    if pending == [] then "" else Join(pending) + NEWLINE
  }

  /** A response's visible parts as a replay should group them: each signed text on its own, and the unsigned texts
    * between two of them together. `pending` are the unsigned texts since the last signed one. */
  function Regrouped(parts: seq<ResponsePart>, pending: seq<string>): seq<RequestPart>
    decreases |parts|
  {
    if parts == [] then Unsigned(Join(pending))
    else if !Visible(parts[0]) then Regrouped(parts[1..], pending)
    else if SignedAndResent(parts[0]) then
      Unsigned(Join(pending)) + [TextPart(parts[0].text.value, parts[0].signature)] + Regrouped(parts[1..], [])
    else Regrouped(parts[1..], pending + [parts[0].text.value])
  }

  /** No signed text occurs earlier than its own place in what remains of the content when its turn comes. */
  ghost predicate NoneEarlier(parts: seq<ResponsePart>, pending: seq<string>)
    decreases |parts|
  {
    parts == []
    || (if !Visible(parts[0]) then NoneEarlier(parts[1..], pending)
        else if SignedAndResent(parts[0]) then
          && NotBefore(pending, parts[0].text.value, VisibleTexts(parts[1..]))
          && NoneEarlier(parts[1..], [])
        else NoneEarlier(parts[1..], pending + [parts[0].text.value]))
  }

  ghost predicate NotBefore(pending: seq<string>, text: string, texts: seq<string>) {
    forall j: nat | j < |Before(pending)| :: !At(Join(pending + ([text] + texts)), text, j)
  }

  lemma BeforeFirst(pending: seq<string>)
    requires pending != []
    ensures Before(pending) == pending[0] + (NEWLINE + Before(pending[1..]))
  {
    assert [pending[0]] + pending[1..] == pending;
    JoinFirst(pending[0], pending[1..]);
    hide Join;
    var first, rest := pending[0], pending[1..];
    if rest == [] {
      assert first + "" + NEWLINE == first + (NEWLINE + "");
    } else {
      assert first + (NEWLINE + Join(rest)) + NEWLINE == first + (NEWLINE + (Join(rest) + NEWLINE));
    }
  }

  lemma {:induction false} JoinSplit(pending: seq<string>, more: seq<string>)
    requires more != []
    ensures Join(pending + more) == Before(pending) + Join(more)
  {
    if pending == [] {
      assert pending + more == more;
      assert "" + Join(more) == Join(more);
    } else {
      hide Join, Before;
      var first, rest := pending[0], pending[1..];
      assert pending + more == [first] + (rest + more) && rest + more != [];
      JoinFirst(first, rest + more);
      JoinSplit(rest, more);
      BeforeFirst(pending);
      Regroup(NEWLINE, Before(rest), Join(more));
      Regroup(first, NEWLINE + Before(rest), Join(more));
    }
  }

  lemma JoinAround(pending: seq<string>, text: string, texts: seq<string>)
    ensures Join(pending + ([text] + texts)) == Before(pending) + text + Behind(texts)
  {
    hide Join, Before, Behind;
    JoinSplit(pending, [text] + texts);
    JoinFirst(text, texts);
    Regroup(Before(pending), text, Behind(texts));
  }

  /** The greedy search matches a text at its own place exactly when it does not occur earlier in what remains, and
    * then what remains are the texts behind it. */
  lemma OwnPlaceIff(pending: seq<string>, text: string, texts: seq<string>)
    ensures var remaining, own := Join(pending + ([text] + texts)), |Before(pending)|;
            && (Find(remaining, text) == Some(own) <==> NotBefore(pending, text, texts))
            && own + |text| <= |remaining| && remaining[..own] == Before(pending)
            && WithoutNewline(remaining[own + |text|..]) == Join(texts)
  {
    var remaining, own := Join(pending + ([text] + texts)), |Before(pending)|;
    JoinAround(pending, text, texts);
    hide Join;
    assert remaining[own..own + |text|] == text;
    assert At(remaining, text, own);
    assert remaining[own + |text|..] == Behind(texts);
    if texts == [] {
      NothingJoined();
    } else {
      assert (NEWLINE + Join(texts))[1..] == Join(texts);
    }
  }

  lemma NothingJoined()
    ensures Join([]) == ""
  {
  }

  lemma {:induction false} TrimStartAppends(text: string)
    ensures TrimNewlinesStart(text + NEWLINE) ==
            if TrimNewlinesStart(text) == "" then "" else TrimNewlinesStart(text) + NEWLINE
  {
    if text == "" {
      assert text + NEWLINE == NEWLINE && NEWLINE[1..] == "";
    } else {
      assert (text + NEWLINE)[1..] == text[1..] + NEWLINE && (text + NEWLINE)[0] == text[0];
      TrimStartAppends(text[1..]);
    }
  }

  lemma SeparatorIsTrimmed(text: string)
    ensures Unsigned(text + NEWLINE) == Unsigned(text)
  {
    TrimStartAppends(text);
    var trimmed := TrimNewlinesStart(text);
    assert (trimmed + NEWLINE)[..|trimmed|] == trimmed;
    assert TrimNewlinesEnd(trimmed + NEWLINE) == TrimNewlinesEnd(trimmed);
  }

  lemma BeforeIsTrimmed(pending: seq<string>)
    ensures Unsigned(Before(pending)) == Unsigned(Join(pending))
  {
    SeparatorIsTrimmed(Join(pending));
    NothingJoined();
  }

  lemma VisibleFirst(parts: seq<ResponsePart>)
    requires parts != []
    ensures VisibleTexts(parts) == (if Visible(parts[0]) then [parts[0].text.value] else []) + VisibleTexts(parts[1..])
    ensures !Visible(parts[0]) ==> VisibleTexts(parts) == VisibleTexts(parts[1..])
  {
    assert [] + VisibleTexts(parts[1..]) == VisibleTexts(parts[1..]);
  }

  lemma SignedAtHome(pending: seq<string>, block: ReasoningBlock, texts: seq<string>, signed: seq<ReasoningBlock>)
    requires NotBefore(pending, block.text, texts)
    ensures VisibleParts(Join(pending + ([block.text] + texts)), [block] + signed) ==
            Unsigned(Join(pending)) + [TextPart(block.text, block.signature)] + VisibleParts(Join(texts), signed)
  {
    hide *;
    OwnPlaceIff(pending, block.text, texts);
    BeforeIsTrimmed(pending);
    NextVisibleParts(Join(pending + ([block.text] + texts)), [block] + signed);
    assert ([block] + signed)[1..] == signed;
  }

  lemma {:induction false} BoundariesKept(parts: seq<ResponsePart>, pending: seq<string>)
    requires NoneEarlier(parts, pending)
    ensures VisibleParts(Join(pending + VisibleTexts(parts)), ResentBlocks(Blocks(parts))) == Regrouped(parts, pending)
    decreases |parts|
  {
    if parts == [] {
      assert pending + VisibleTexts(parts) == pending && ResentBlocks(Blocks(parts)) == [];
    } else {
      var part, rest, texts := parts[0], parts[1..], VisibleTexts(parts[1..]);
      var signed := ResentBlocks(Blocks(rest));
      VisibleFirst(parts);
      ResentOfFirst(parts);
      assert [] + signed == signed && [] + texts == texts;
      hide VisibleTexts, Blocks, ResentBlocks, Join, VisibleParts, Before, NotBefore, Unsigned;
      if !Visible(part) {
        BoundariesKept(rest, pending);
      } else if SignedAndResent(part) {
        var block := ReasoningBlock(part.text.value, part.signature, true);
        assert ResentBlocks(Blocks(parts)) == [block] + signed && VisibleTexts(parts) == [block.text] + texts;
        SignedAtHome(pending, block, texts, signed);
        BoundariesKept(rest, []);
        assert Regrouped(parts, pending) ==
               Unsigned(Join(pending)) + [TextPart(block.text, block.signature)] + Regrouped(rest, []);
      } else {
        Regroup(pending, [part.text.value], texts);
        BoundariesKept(rest, pending + [part.text.value]);
      }
    }
  }

  /** When no signed text occurs earlier in what remains when its turn comes, every signature stays with its own
    * text: the replay sends each signed text in its place, and what lies between two of them as one unsigned text. */
  lemma ReplayKeepsBoundaries(parts: seq<ResponsePart>)
    requires SignedTexts(parts) != [] && NoneEarlier(parts, [])
    ensures var turn := Parsed(parts); ReplayedText(turn.text.GetOr(""), turn.reasoning) == Regrouped(parts, [])
  {
    PairsOfParsed(parts);
    BoundariesKept(parts, []);
    NothingJoined();
    var texts := VisibleTexts(parts);
    assert [] + texts == texts;
    hide VisibleTexts, Blocks, SignedTexts, VisibleParts, Regrouped, Join, NoneEarlier;
  }

  /** An unsigned `ab` and a signed `a` behind it: the signature goes to the earlier `a`. */
  lemma SignatureMovesForward(signature: string)
    ensures VisibleParts("ab\na", [ReasoningBlock("a", Some(signature), true)]) ==
            [TextPart("a", Some(signature)), TextPart("b\na", None)]
  {
    var content, block := "ab\na", ReasoningBlock("a", Some(signature), true);
    assert content[0..1] == "a" && At(content, "a", 0);
    assert Find(content, "a") == Some(0);
    NextVisibleParts(content, [block]);
    assert [block][1..] == [];
    assert content[..0] == "" && content[1..] == "b\na";
    assert Unsigned("") == [] && Unsigned("b\na") == [TextPart("b\na", None)];
    assert WithoutNewline("b\na") == "b\na";
    assert VisibleParts("b\na", []) == Unsigned("b\na");
  }

  // ---------- Calls and thoughts ----------

  /** The function calls of a response: name, arguments and signature, in order. */
  function CallsMade(parts: seq<ResponsePart>): seq<RequestPart> {
    if parts == [] then []
    else
      (match parts[0].functionCall
       case Some(call) => [CallPart(call.name, call.args, parts[0].signature)]
       case None => [])
      + CallsMade(parts[1..])
  }

  /** The non-empty thoughts of a response with their signatures, in order. */
  function ThoughtsMade(parts: seq<ResponsePart>): seq<RequestPart> {
    if parts == [] then []
    else
      (if parts[0].thought && parts[0].text.GetOr("") != ""
       then [ThoughtPart(parts[0].text.value, parts[0].signature)] else [])
      + ThoughtsMade(parts[1..])
  }

  lemma {:induction false} CallsAreSent(parts: seq<ResponsePart>, index: nat)
    ensures CallParts(Calls(parts, index)) == CallsMade(parts)
  {
    if parts != [] {
      CallsAreSent(parts[1..], index + 1);
      var rest := Calls(parts[1..], index + 1);
      assert [] + rest == rest && [] + CallsMade(parts[1..]) == CallsMade(parts[1..]);
      assert Calls(parts, index) != rest ==> Calls(parts, index)[1..] == rest;
    }
  }

  lemma {:induction false} ThoughtsAreSent(parts: seq<ResponsePart>)
    ensures Thoughts(Blocks(parts)) == ThoughtsMade(parts)
  {
    if parts != [] {
      ThoughtsAreSent(parts[1..]);
      var rest := Blocks(parts[1..]);
      assert [] + rest == rest && [] + Thoughts(rest) == Thoughts(rest);
      assert [] + ThoughtsMade(parts[1..]) == ThoughtsMade(parts[1..]);
      assert Blocks(parts) != rest ==> Blocks(parts)[1..] == rest;
    }
  }

  /** A call is that of the part at its index. */
  predicate Positioned(parts: seq<ResponsePart>, first: nat, call: ToolCall) {
    && first <= call.index < first + |parts|
    && parts[call.index - first].functionCall == Some(FunctionCall(call.name, call.arguments))
    && parts[call.index - first].signature == call.signature
  }

  lemma FirstOfCalls(parts: seq<ResponsePart>, first: nat)
    requires parts != []
    ensures var call, rest := parts[0].functionCall, Calls(parts[1..], first + 1);
            Calls(parts, first) ==
            if call.Some? then [ToolCall(first, call.value.name, call.value.args, parts[0].signature)] + rest else rest
  {
    assert [] + Calls(parts[1..], first + 1) == Calls(parts[1..], first + 1);
  }

  lemma {:induction false} EachIsPositioned(parts: seq<ResponsePart>, first: nat)
    ensures forall call <- Calls(parts, first) :: Positioned(parts, first, call)
  {
    if parts != [] {
      EachIsPositioned(parts[1..], first + 1);
      FirstOfCalls(parts, first);
      hide Calls;
      forall call <- Calls(parts[1..], first + 1) ensures Positioned(parts, first, call) {
        assert Positioned(parts[1..], first + 1, call);
        assert parts[1..][call.index - (first + 1)] == parts[call.index - first];
      }
    }
  }

  predicate Ascending(calls: seq<ToolCall>) {
    forall i, j | 0 <= i < j < |calls| :: calls[i].index < calls[j].index
  }

  lemma PrependAscends(call: ToolCall, rest: seq<ToolCall>)
    requires Ascending(rest) && forall other <- rest :: call.index < other.index
    ensures Ascending([call] + rest)
  {
    var calls := [call] + rest;
    forall i, j | 0 <= i < j < |calls| ensures calls[i].index < calls[j].index {
      assert calls[j] == rest[j - 1] && rest[j - 1] in rest;
      assert i > 0 ==> calls[i] == rest[i - 1];
    }
  }

  lemma {:induction false} IndicesAscend(parts: seq<ResponsePart>, first: nat)
    ensures Ascending(Calls(parts, first))
  {
    if parts != [] {
      var rest := Calls(parts[1..], first + 1);
      IndicesAscend(parts[1..], first + 1);
      EachIsPositioned(parts[1..], first + 1);
      FirstOfCalls(parts, first);
      hide Calls, Ascending;
      forall other <- rest ensures first < other.index {
        assert Positioned(parts[1..], first + 1, other);
      }
      if parts[0].functionCall.Some? {
        var call := parts[0].functionCall.value;
        PrependAscends(ToolCall(first, call.name, call.args, parts[0].signature), rest);
      }
    }
  }

  lemma {:induction false} NoCallIsLeftOut(parts: seq<ResponsePart>, first: nat, k: nat)
    requires k < |parts| && parts[k].functionCall.Some?
    ensures exists call <- Calls(parts, first) :: call.index == first + k
  {
    FirstOfCalls(parts, first);
    if k > 0 {
      NoCallIsLeftOut(parts[1..], first + 1, k - 1);
      hide Calls;
      var call :| call in Calls(parts[1..], first + 1) && call.index == first + 1 + (k - 1);
      assert call in Calls(parts, first);
    } else {
      assert Calls(parts, first)[0].index == first;
    }
  }

  /** Each parsed call is that of the part at its index, the indices ascend, and no call is left out. */
  lemma CallsArePositioned(parts: seq<ResponsePart>)
    ensures var calls := Parsed(parts).toolCalls;
            && (forall call <- calls :: Positioned(parts, 0, call))
            && Ascending(calls)
            && (forall k: nat | k < |parts| && parts[k].functionCall.Some? :: exists call <- calls :: call.index == k)
  {
    EachIsPositioned(parts, 0);
    IndicesAscend(parts, 0);
    forall k: nat | k < |parts| && parts[k].functionCall.Some?
      ensures exists call <- Calls(parts, 0) :: call.index == k
    {
      NoCallIsLeftOut(parts, 0, k);
    }
  }

  predicate AllText(parts: seq<RequestPart>) {
    forall part <- parts :: part.TextPart?
  }

  lemma UnsignedIsText(text: string)
    ensures AllText(Unsigned(text))
  {
  }

  lemma NextText(before: seq<RequestPart>, block: ReasoningBlock, rest: seq<RequestPart>)
    requires AllText(before) && AllText(rest)
    ensures var all := before + [TextPart(block.text, block.signature)] + rest; AllText(all) && all != []
  {
  }

  lemma {:induction false} VisiblePartsAreText(remaining: string, signed: seq<ReasoningBlock>)
    ensures AllText(VisibleParts(remaining, signed)) && (signed != [] ==> VisibleParts(remaining, signed) != [])
    decreases |signed|
  {
    hide AllText, VisibleParts, Unsigned, WithoutNewline;
    if signed == [] {
      NothingSigned(remaining);
      UnsignedIsText(remaining);
    } else {
      var block, found := signed[0], Find(remaining, signed[0].text);
      NextVisibleParts(remaining, signed);
      if found.Some? {
        var after := WithoutNewline(remaining[found.value + |block.text|..]);
        VisiblePartsAreText(after, signed[1..]);
        UnsignedIsText(remaining[..found.value]);
        NextText(Unsigned(remaining[..found.value]), block, VisibleParts(after, signed[1..]));
      } else {
        VisiblePartsAreText(remaining, signed[1..]);
        NoText();
        NextText([], block, VisibleParts(remaining, signed[1..]));
        assert [] + [TextPart(block.text, block.signature)] == [TextPart(block.text, block.signature)];
      }
    }
  }

  lemma NoText()
    ensures AllText([])
  {
  }

  /** What is sent for a content: text parts, and none exactly for no content. */
  lemma ReplayedTextIsText(parts: seq<ResponsePart>)
    ensures var turn := Parsed(parts);
            var sent := ReplayedText(turn.text.GetOr(""), turn.reasoning);
            AllText(sent) && (sent == [] <==> turn.text.GetOr("") == "")
  {
    var turn := Parsed(parts);
    var content, signed := turn.text.GetOr(""), ResentBlocks(turn.reasoning);
    VisiblePartsAreText(content, signed);
    PairsOfParsed(parts);
    ReplayedTextRoundTrip(parts);
    NothingJoined();
    hide Blocks, VisibleTexts, VisibleParts, Join, Calls, Spelled, DropsNewlines, FirstRedactedSignature;
    if signed != [] {
      SignedMeansContent(parts);
    }
  }

  lemma {:induction false} SignedMeansContent(parts: seq<ResponsePart>)
    requires ResentBlocks(Blocks(parts)) != []
    ensures Join(VisibleTexts(parts)) != ""
  {
    VisibleFirst(parts);
    ResentOfFirst(parts);
    hide Blocks, ResentBlocks, VisibleTexts;
    if Visible(parts[0]) {
      var text, texts := parts[0].text.value, VisibleTexts(parts[1..]);
      JoinFirst(text, texts);
      if text == "" {
        SignedMeansContent(parts[1..]);
        NothingJoined();
      }
    } else {
      SignedMeansContent(parts[1..]);
    }
  }

  lemma NothingToJoinIff(texts: seq<string>)
    ensures Join(texts) == "" <==> texts == [] || texts == [""]
  {
    if texts != [] {
      JoinFirst(texts[0], texts[1..]);
      assert [texts[0]] + texts[1..] == texts;
    }
  }

  /** Parsing a response and replaying it: text parts first, then exactly its non-empty thoughts, then exactly its
    * function calls, each in order and with its signature. There is nothing to send, which is an error, exactly
    * when the response has no thought and no call and no visible text but possibly a single empty one. */
  lemma ReplaySendsEverything(parts: seq<ResponsePart>)
    ensures var turn := Parsed(parts);
            var text := ReplayedText(turn.text.GetOr(""), turn.reasoning);
            && AllText(text)
            && Replayed(turn).GetOr([]) == text + ThoughtsMade(parts) + CallsMade(parts)
            && (Replayed(turn).None? <==>
                ThoughtsMade(parts) == [] && CallsMade(parts) == []
                && (VisibleTexts(parts) == [] || VisibleTexts(parts) == [""]))
  {
    CallsAreSent(parts, 0);
    ThoughtsAreSent(parts);
    ReplayedTextIsText(parts);
    NothingToJoinIff(VisibleTexts(parts));
    hide Calls, Blocks, VisibleTexts, Join, ReplayedText, CallParts, Thoughts, ThoughtsMade, CallsMade;
    NothingJoined();
  }

  function FirstSigned(parts: seq<ResponsePart>): Option<string> {
    if parts == [] then None
    else if SignedVisible(parts[0]) then parts[0].signature
    else FirstSigned(parts[1..])
  }

  lemma {:induction false} FirstSignedIsRedacted(parts: seq<ResponsePart>)
    ensures FirstRedactedSignature(Blocks(parts)) == FirstSigned(parts)
  {
    if parts != [] {
      FirstSignedIsRedacted(parts[1..]);
      var rest := Blocks(parts[1..]);
      assert [] + rest == rest;
      assert Blocks(parts) != rest ==> Blocks(parts)[1..] == rest;
    }
  }

  /** When only empty texts are signed, the content is sent whole under the first of their signatures. */
  lemma UnsignedContentIsSentWhole(parts: seq<ResponsePart>)
    requires SignedTexts(parts) == [] && Join(VisibleTexts(parts)) != ""
    ensures var turn := Parsed(parts);
            ReplayedText(turn.text.GetOr(""), turn.reasoning) ==
            [TextPart(Join(VisibleTexts(parts)), FirstSigned(parts))]
  {
    PairsOfParsed(parts);
    FirstSignedIsRedacted(parts);
    NothingJoined();
    hide Blocks, VisibleTexts, Join, SignedTexts, FirstRedactedSignature, FirstSigned;
  }
}
