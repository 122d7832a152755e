/** What merging the rollout's messages into a turn adds to it, in terms of the messages alone. */
module MergedMessages {
  import opened Text
  import opened ThreadProjection
  import opened Wrappers

  // ---------- Which messages are shown ----------

  /** Not injected, and with a text, an image from the user, or reasoning or tool calls of the assistant. */
  ghost predicate Shows(m: Message) {
    && !m.injected
    && (|| (exists i | 0 <= i < |m.content| :: !IsWhitespace(m.content[i]))
        || (m.role.User? && exists part <- m.parts :: part.ImagePart?)
        || (m.role.Assistant? && (m.reasoning != [] || m.callsTools)))
  }

  lemma {:induction false} BlankIff(text: string)
    ensures TrimEnd(text) == "" <==> Blank(text)
    ensures TrimStart(text) == "" <==> Blank(text)
    ensures TrimEnd(text) <= text
  {
    if text != "" {
      var front := text[..|text| - 1];
      BlankIff(front);
      BlankIff(text[1..]);
      assert Blank(text) <==> Blank(front) && IsWhitespace(text[|text| - 1]);
      assert Blank(text) <==> IsWhitespace(text[0]) && Blank(text[1..]);
    }
  }

  lemma {:induction false} StartNotBlank(text: string)
    ensures var r := TrimStart(text); r == "" || !IsWhitespace(r[0])
  {
    if text != "" {
      StartNotBlank(text[1..]);
    }
  }

  lemma ProjectableIff(m: Message)
    ensures Projectable(m) <==> Shows(m)
  {
    BlankIff(m.content);
    var start := TrimStart(m.content);
    BlankIff(start);
    StartNotBlank(m.content);
    hide TrimStart, TrimEnd;
    assert start != "" ==> !Blank(start);
  }

  /** One more message is one more assistant message exactly when the assistant wrote it and it is shown. */
  lemma AssistantsInOrder(a: seq<Message>, m: Message, b: seq<Message>)
    ensures AssistantsOf(a + [m] + b) ==
            AssistantsOf(a) + (if Shows(m) && m.role.Assistant? then [m] else []) + AssistantsOf(b)
  {
    AssistantsConcat(a + [m], b);
    AssistantsConcat(a, [m]);
    ProjectableIff(m);
    assert [m][1..] == [];
    hide Shows, Projectable;
  }

  lemma {:induction false} AssistantsConcat(a: seq<Message>, b: seq<Message>)
    ensures AssistantsOf(a + b) == AssistantsOf(a) + AssistantsOf(b)
  {
    hide Projectable;
    if a == [] {
      assert a + b == b;
    } else {
      AssistantsConcat(a[1..], b);
      assert (a + b)[1..] == a[1..] + b && (a + b)[0] == a[0];
      var first := if Projectable(a[0]) && a[0].role.Assistant? then [a[0]] else [];
      Regroup(first, AssistantsOf(a[1..]), AssistantsOf(b));
    }
  }

  lemma {:induction false} AssistantsAre(messages: seq<Message>, m: Message)
    ensures m in AssistantsOf(messages) <==> m in messages && Shows(m) && m.role.Assistant?
  {
    hide Shows, Projectable;
    if messages != [] {
      AssistantsAre(messages[1..], m);
      ProjectableIff(messages[0]);
      assert m in messages <==> m == messages[0] || m in messages[1..];
    }
  }

  ghost predicate LastUserAt(messages: seq<Message>, k: nat) {
    && k < |messages| && Shows(messages[k]) && messages[k].role.User?
    && forall j | k < j < |messages| :: !(Shows(messages[j]) && messages[j].role.User?)
  }

  /** The user message of a turn is the last one shown. */
  lemma {:induction false} UserIsLast(messages: seq<Message>, m: Message)
    ensures UserOf(messages) == Some(m) <==> exists k: nat :: LastUserAt(messages, k) && messages[k] == m
  {
    if messages != [] {
      var front, last := messages[..|messages| - 1], messages[|messages| - 1];
      UserIsLast(front, m);
      ProjectableIff(last);
      hide Shows, Projectable;
      if Shows(last) && last.role.User? {
        assert LastUserAt(messages, |front|);
      } else {
        forall k: nat ensures LastUserAt(messages, k) <==> LastUserAt(front, k) {
        }
      }
    }
  }

  /** What is displayed of a message's reasoning: block by block the text without white space around it, unless that is
    * empty or the block is redacted. */
  lemma ReasoningDisplayed(
    a: seq<Block>, before: string, text: string, after: string, redacted: bool, b: seq<Block>)
    requires Blank(before) && Blank(after) && Trimmed(text)
    ensures DisplayedReasoning(a + [Block(before + text + after, redacted)] + b) ==
            DisplayedReasoning(a) + (if redacted || text == "" then [] else [text]) + DisplayedReasoning(b)
  {
    var block := Block(before + text + after, redacted);
    DisplayedConcat(a + [block], b);
    DisplayedConcat(a, [block]);
    TrimOfBlanks(before, text, after);
    assert [block][1..] == [];
    hide Blank, Trimmed, Trim;
  }

  lemma {:induction false} DisplayedConcat(a: seq<Block>, b: seq<Block>)
    ensures DisplayedReasoning(a + b) == DisplayedReasoning(a) + DisplayedReasoning(b)
  {
    hide Trim;
    if a == [] {
      assert a + b == b;
    } else {
      DisplayedConcat(a[1..], b);
      assert (a + b)[1..] == a[1..] + b && (a + b)[0] == a[0];
      var first := if !a[0].redacted && Trim(a[0].text) != "" then [Trim(a[0].text)] else [];
      Regroup(first, DisplayedReasoning(a[1..]), DisplayedReasoning(b));
    }
  }

  // ---------- What is added ----------

  /** The item is the reply or the displayed reasoning of an assistant message, and no item there before says the
    * same. */
  ghost predicate AddedFor(items: seq<ThreadItem>, m: Message, item: ThreadItem) {
    || (&& item == AssistantMessage(None, Some(m.content))
        && forall other <- items :: other.AssistantMessage? ==> other.reply != Some(m.content))
    || (&& item == Reasoning(None, [], DisplayedReasoning(m.reasoning)) && item.content != []
        && forall other <- items :: other.Reasoning? ==> other.content != item.content)
  }

  ghost predicate AddedForUser(items: seq<ThreadItem>, m: Message, item: ThreadItem) {
    && item == UserMessage(m.content, if exists part <- m.parts :: part.ImagePart? then m.parts else [])
    && forall other <- items :: other.UserMessage? ==> other.text != m.content
  }

  lemma OneAdds(items: seq<ThreadItem>, m: Message, item: ThreadItem)
    ensures item in WithReply(WithReasoning(items, m), m) <==> item in items || AddedFor(items, m, item)
  {
    hide Slot, DisplayedReasoning;
    var first := WithReasoning(items, m);
    var content := DisplayedReasoning(m.reasoning);
    InsertedMember(items, Slot(items, m), Reasoning(None, [], content), item);
    InsertedMember(first, Slot(first, m), AssistantMessage(None, Some(m.content)), item);
    hide InsertAt;
    ReasoningAddsNoReply(items, m);
  }

  lemma ReasoningAddsNoReply(items: seq<ThreadItem>, m: Message)
    ensures HasReply(WithReasoning(items, m), m.content) <==> HasReply(items, m.content)
  {
    hide Slot, DisplayedReasoning;
    forall other: ThreadItem {
      InsertedMember(items, Slot(items, m), Reasoning(None, [], DisplayedReasoning(m.reasoning)), other);
    }
    hide InsertAt;
  }

  lemma InsertedMember(items: seq<ThreadItem>, i: nat, added: ThreadItem, item: ThreadItem)
    requires i <= |items|
    ensures item in InsertAt(items, i, added) <==> item == added || item in items
  {
    assert items == items[..i] + items[i..];
  }

  lemma StillAdded(items: seq<ThreadItem>, first: Message, m: Message, item: ThreadItem)
    ensures var second := WithReply(WithReasoning(items, first), first);
            item in second || AddedFor(second, m, item) <==> item in second || AddedFor(items, m, item)
  {
    forall other: ThreadItem {
      OneAdds(items, first, other);
    }
    hide WithReply, WithReasoning, DisplayedReasoning;
  }

  lemma {:induction false} AllAdd(items: seq<ThreadItem>, assistants: seq<Message>, item: ThreadItem)
    ensures item in WithAssistants(items, assistants) <==>
            item in items || exists m <- assistants :: AddedFor(items, m, item)
    decreases |assistants|
  {
    if assistants != [] {
      var second := WithReply(WithReasoning(items, assistants[0]), assistants[0]);
      OneAdds(items, assistants[0], item);
      AllAdd(second, assistants[1..], item);
      forall m: Message {
        StillAdded(items, assistants[0], m, item);
      }
      hide WithReply, WithReasoning, AddedFor;
      assert forall m <- assistants :: m == assistants[0] || m in assistants[1..];
    }
  }

  /** A merge adds exactly this, and keeps everything: the last shown user message, and the reply and the displayed
    * reasoning of every shown assistant message, each unless an item already says it. */
  lemma MergeSays(items: seq<ThreadItem>, messages: seq<Message>, item: ThreadItem)
    ensures item in Merged(items, messages) <==>
            || item in items
            || (exists k: nat :: LastUserAt(messages, k) && AddedForUser(items, messages[k], item))
            || (exists m <- messages :: Shows(m) && m.role.Assistant? && AddedFor(items, m, item))
  {
    var user := UserOf(messages);
    var first := WithUser(items, user);
    AllAdd(first, AssistantsOf(messages), item);
    UserAdds(items, messages, item);
    forall m: Message ensures m in AssistantsOf(messages) <==> m in messages && Shows(m) && m.role.Assistant? {
      AssistantsAre(messages, m);
    }
    forall m: Message ensures AddedFor(first, m, item) <==> AddedFor(items, m, item) {
      UserAddsNeither(items, user, m, item);
    }
    hide UserOf, AssistantsOf, WithAssistants, WithUser, Shows, LastUserAt, AddedFor, AddedForUser;
  }

  lemma UserAdds(items: seq<ThreadItem>, messages: seq<Message>, item: ThreadItem)
    ensures item in WithUser(items, UserOf(messages)) <==>
            item in items || exists k: nat :: LastUserAt(messages, k) && AddedForUser(items, messages[k], item)
  {
    var user := UserOf(messages);
    forall k: nat | LastUserAt(messages, k) ensures user == Some(messages[k]) {
      UserIsLast(messages, messages[k]);
    }
    if user.Some? {
      UserIsLast(messages, user.value);
      assert item in WithUser(items, user) <==> item in items || AddedForUser(items, user.value, item);
    }
    hide UserOf, LastUserAt, AddedForUser;
  }

  lemma UserAddsNeither(items: seq<ThreadItem>, user: Option<Message>, m: Message, item: ThreadItem)
    ensures AddedFor(WithUser(items, user), m, item) <==> AddedFor(items, m, item)
  {
    hide DisplayedReasoning, HasUser;
    assert forall other <- WithUser(items, user) :: other in items || other.UserMessage?;
    assert forall other <- items :: other in WithUser(items, user);
  }
}
