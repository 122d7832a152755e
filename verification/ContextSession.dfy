/** Whole runs of a session's context: what a reader of the history knows of the reference context, and what a restart
  * brings back from the rollout. */
module ContextSession {
  import opened ContextManager
  import opened Wrappers

  /** What a session does with its manager: record messages, apply a turn's context, compact the history to any
    * replacement, store token counts. Two things are recorded without being written to the rollout: the message of
    * a goal update outside a turn, and the context of a turn whose start fails between recording and appending. */
  datatype Operation =
    | Record(texts: seq<string>)
    | RecordUnlogged(text: string)
    | Update(context: TurnContext)
    | UpdateUnlogged(context: TurnContext)
    | Compact(replacement: seq<Message>)
    | StoreTokens(info: Option<int>)

  predicate IsLogged(operation: Operation) {
    !operation.RecordUnlogged? && !operation.UpdateUnlogged?
  }

  predicate IsUpdate(operation: Operation) {
    operation.Update? || operation.UpdateUnlogged?
  }

  function Conversations(texts: seq<string>): seq<Message> {
    seq(|texts|, i requires 0 <= i < |texts| => Conversation(texts[i]))
  }

  function Do(s: State, operation: Operation): State {
    match operation
    case Record(texts) => Recorded(s, Conversations(texts))
    case RecordUnlogged(text) => Recorded(s, [Conversation(text)])
    case Update(context) => Updated(s, context)
    case UpdateUnlogged(context) => Updated(s, context)
    case Compact(replacement) => Replaced(s, replacement, None)
    case StoreTokens(info) => s.(tokenInfo := info)
  }

  /** What a session writes to the rollout for an operation. */
  function Log(s: State, operation: Operation): seq<RolloutItem> {
    match operation
    case Record(texts) => ResponseItems(Conversations(texts))
    case Update(context) => [TurnContextItem(context)] + ResponseItems(ContextMessages(s, context))
    case Compact(replacement) => [Compacted(Some(replacement))]
    case StoreTokens(info) => [TokenCount(info)]
    case _ => []
  }

  /** A manager and the rollout written so far. A restart rebuilds the manager from the rollout. */
  datatype Session = Session(manager: State, rollout: seq<RolloutItem>)

  const FRESH := Session(EMPTY, [])

  datatype Event = Does(operation: Operation) | Restarts

  function Rebuilt(rollout: seq<RolloutItem>): State {
    ReplayAll(EMPTY, rollout)
  }

  function Next(s: Session, event: Event): Session {
    match event
    case Does(operation) => Session(Do(s.manager, operation), s.rollout + Log(s.manager, operation))
    case Restarts => s.(manager := Rebuilt(s.rollout))
  }

  function Run(s: Session, events: seq<Event>): Session
    decreases |events|
  {
    if events == [] then s else Run(Next(s, events[0]), events[1..])
  }

  // ---------- One operation ----------

  /** The messages an operation adds to the history. */
  function Appended(s: State, operation: Operation): seq<Message> {
    match operation
    case Record(texts) => Conversations(texts)
    case RecordUnlogged(text) => [Conversation(text)]
    case Update(context) => ContextMessages(s, context)
    case UpdateUnlogged(context) => ContextMessages(s, context)
    case _ => []
  }

  /** What an operation that adds `messages` does to any manager, version aside. */
  function Effect(r: State, messages: seq<Message>, operation: Operation): State {
    match operation
    case Compact(replacement) => State(replacement, None, None, r.historyVersion)
    case StoreTokens(info) => r.(items := r.items + messages, tokenInfo := info)
    case Update(context) => r.(items := r.items + messages, reference := Some(context))
    case UpdateUnlogged(context) => r.(items := r.items + messages, reference := Some(context))
    case _ => r.(items := r.items + messages)
  }

  lemma DoIsEffect(s: State, operation: Operation)
    ensures Same(Do(s, operation), Effect(s, Appended(s, operation), operation))
  {
    hide ContextMessages;
    assert s.items + [] == s.items;
  }

  lemma ReplayIsEffect(s: State, r: State, operation: Operation)
    requires IsLogged(operation)
    ensures Same(ReplayAll(r, Log(s, operation)), Effect(r, Appended(s, operation), operation))
  {
    match operation
    case Record(texts) => ReplayMessages(r, Conversations(texts));
    case Update(context) =>
      var messages := ContextMessages(s, context);
      hide ContextMessages;
      ReplayMessages(r.(reference := Some(context)), messages);
      assert Log(s, operation)[1..] == ResponseItems(messages);
    case Compact(_) => assert Log(s, operation)[1..] == [];
    case StoreTokens(_) =>
      assert Log(s, operation)[1..] == [];
      assert r.items + [] == r.items;
  }

  /** The rebuilt manager after an operation: that of before, changed like the manager in memory if the operation is
    * logged. */
  lemma RebuiltNext(s: Session, operation: Operation)
    ensures var rebuilt := Rebuilt(s.rollout);
            Same(Rebuilt(Next(s, Does(operation)).rollout),
                 if IsLogged(operation) then Effect(rebuilt, Appended(s.manager, operation), operation) else rebuilt)
  {
    ReplayConcat(EMPTY, s.rollout, Log(s.manager, operation));
    if IsLogged(operation) {
      hide Log, Appended;
      ReplayIsEffect(s.manager, Rebuilt(s.rollout), operation);
    } else {
      assert s.rollout + [] == s.rollout;
    }
  }

  // ---------- The history ----------

  /** A message in memory, and whether the rollout has it. */
  datatype Entry = Entry(message: Message, logged: bool)

  function Entries(messages: seq<Message>, logged: bool): seq<Entry> {
    seq(|messages|, i requires 0 <= i < |messages| => Entry(messages[i], logged))
  }

  function Messages(history: seq<Entry>): seq<Message> {
    seq(|history|, i requires 0 <= i < |history| => history[i].message)
  }

  function OnlyLogged(history: seq<Entry>): seq<Entry> {
    if history == [] then []
    else (if history[0].logged then [history[0]] else []) + OnlyLogged(history[1..])
  }

  predicate AllLogged(history: seq<Entry>) {
    forall entry <- history :: entry.logged
  }

  function HistoryAfter(history: seq<Entry>, s: State, event: Event): seq<Entry> {
    match event
    case Restarts => OnlyLogged(history)
    case Does(Compact(replacement)) => Entries(replacement, true)
    case Does(operation) => history + Entries(Appended(s, operation), IsLogged(operation))
  }

  /** The history along a run, each message with whether it was logged. */
  function History(history: seq<Entry>, s: Session, events: seq<Event>): seq<Entry>
    decreases |events|
  {
    if events == [] then history
    else History(HistoryAfter(history, s.manager, events[0]), Next(s, events[0]), events[1..])
  }

  lemma {:induction false} OnlyLoggedConcat(a: seq<Entry>, b: seq<Entry>)
    ensures OnlyLogged(a + b) == OnlyLogged(a) + OnlyLogged(b)
  {
    if a == [] {
      assert a + b == b;
    } else {
      assert (a + b)[1..] == a[1..] + b && (a + b)[0] == a[0];
      OnlyLoggedConcat(a[1..], b);
      Regroup(if a[0].logged then [a[0]] else [], OnlyLogged(a[1..]), OnlyLogged(b));
    }
  }

  lemma {:induction false} OnlyLoggedOf(messages: seq<Message>, logged: bool)
    ensures OnlyLogged(Entries(messages, logged)) == if logged then Entries(messages, true) else []
  {
    if messages != [] {
      OnlyLoggedOf(messages[1..], logged);
      assert Entries(messages, logged)[1..] == Entries(messages[1..], logged);
      assert Entries(messages, true) == [Entry(messages[0], true)] + Entries(messages[1..], true);
    }
  }

  lemma {:induction false} OnlyLoggedFacts(history: seq<Entry>)
    ensures AllLogged(OnlyLogged(history)) && OnlyLogged(OnlyLogged(history)) == OnlyLogged(history)
    ensures if AllLogged(history) then OnlyLogged(history) == history else |OnlyLogged(history)| < |history|
  {
    if history != [] {
      OnlyLoggedFacts(history[1..]);
      var rest := OnlyLogged(history[1..]);
      assert [] + rest == rest;
      assert forall entry <- history :: entry == history[0] || entry in history[1..];
      if history[0].logged {
        assert ([history[0]] + rest)[1..] == rest;
        assert [history[0]] + history[1..] == history;
      }
    }
  }

  ghost predicate HistoryInv(s: Session, history: seq<Entry>) {
    && s.manager.items == Messages(history)
    && Rebuilt(s.rollout).items == Messages(OnlyLogged(history))
    && Rebuilt(s.rollout).tokenInfo == s.manager.tokenInfo
  }

  lemma MessagesFacts(a: seq<Entry>, messages: seq<Message>, logged: bool)
    ensures Messages(a + Entries(messages, logged)) == Messages(a) + messages
    ensures Messages(Entries(messages, logged)) == messages
  {
  }

  /** What an operation does to a manager's history and token counts. */
  lemma EffectFacts(r: State, messages: seq<Message>, operation: Operation)
    ensures var t := Effect(r, messages, operation);
            && t.items == (if operation.Compact? then operation.replacement else r.items + messages)
            && t.tokenInfo == (if operation.Compact? then None
                               else if operation.StoreTokens? then operation.info else r.tokenInfo)
  {
  }

  lemma HistoryDoes(s: Session, history: seq<Entry>, operation: Operation)
    requires HistoryInv(s, history)
    ensures HistoryInv(Next(s, Does(operation)), HistoryAfter(history, s.manager, Does(operation)))
  {
    var added, logged := Appended(s.manager, operation), IsLogged(operation);
    var rebuilt := Rebuilt(s.rollout);
    assert Next(s, Does(operation)).manager == Do(s.manager, operation);
    DoIsEffect(s.manager, operation);
    RebuiltNext(s, operation);
    OnlyLoggedConcat(history, Entries(added, logged));
    OnlyLoggedOf(added, logged);
    MessagesFacts(history, added, logged);
    MessagesFacts(OnlyLogged(history), added, true);
    EffectFacts(s.manager, added, operation);
    EffectFacts(rebuilt, added, operation);
    assert OnlyLogged(history) + [] == OnlyLogged(history);
    if operation.Compact? {
      OnlyLoggedOf(operation.replacement, true);
      MessagesFacts([], operation.replacement, true);
    }
    hide Rebuilt, OnlyLogged, Do, Log, Appended, Messages, Entries, Effect, Next;
  }

  lemma HistoryNext(s: Session, history: seq<Entry>, event: Event)
    requires HistoryInv(s, history)
    ensures HistoryInv(Next(s, event), HistoryAfter(history, s.manager, event))
  {
    OnlyLoggedFacts(history);
    match event
    case Restarts => hide OnlyLogged, Rebuilt;
    case Does(operation) => hide *; HistoryDoes(s, history, operation);
  }

  lemma {:induction false} HistoryRun(s: Session, history: seq<Entry>, events: seq<Event>)
    requires HistoryInv(s, history)
    ensures HistoryInv(Run(s, events), History(history, s, events))
    decreases |events|
  {
    hide HistoryInv, HistoryAfter, Next;
    if events != [] {
      HistoryNext(s, history, events[0]);
      HistoryRun(Next(s, events[0]), HistoryAfter(history, s.manager, events[0]), events[1..]);
    }
  }

  // ---------- The reference ----------

  /** The reference a rebuild gives: the context of the last logged update since the last compaction. */
  function LoggedReference(reference: Option<TurnContext>, events: seq<Event>): Option<TurnContext>
    decreases |events|
  {
    if events == [] then reference
    else
      match events[0]
      case Does(Update(context)) => LoggedReference(Some(context), events[1..])
      case Does(Compact(_)) => LoggedReference(None, events[1..])
      case _ => LoggedReference(reference, events[1..])
  }

  /** The context of a failed start that no later update, compaction or restart has replaced. */
  function Pending(pending: Option<TurnContext>, events: seq<Event>): Option<TurnContext>
    decreases |events|
  {
    if events == [] then pending
    else
      match events[0]
      case Does(UpdateUnlogged(context)) => Pending(Some(context), events[1..])
      case Does(Update(_)) => Pending(None, events[1..])
      case Does(Compact(_)) => Pending(None, events[1..])
      case Does(_) => Pending(pending, events[1..])
      case Restarts => Pending(None, events[1..])
  }

  ghost predicate ReferenceInv(s: Session, logged: Option<TurnContext>, pending: Option<TurnContext>) {
    && Rebuilt(s.rollout).reference == logged
    && s.manager.reference == if pending.Some? then pending else logged
  }

  lemma ReferenceNext(s: Session, logged: Option<TurnContext>, pending: Option<TurnContext>, event: Event)
    requires ReferenceInv(s, logged, pending)
    ensures ReferenceInv(Next(s, event), LoggedReference(logged, [event]), Pending(pending, [event]))
  {
    assert [event][1..] == [];
    if event.Does? {
      RebuiltNext(s, event.operation);
      hide Rebuilt, Appended, ContextMessages;
    }
  }

  lemma {:induction false} ReferenceRun(
    s: Session, logged: Option<TurnContext>, pending: Option<TurnContext>, events: seq<Event>)
    requires ReferenceInv(s, logged, pending)
    ensures ReferenceInv(Run(s, events), LoggedReference(logged, events), Pending(pending, events))
    decreases |events|
  {
    if events != [] {
      assert [events[0]][1..] == [];
      ReferenceNext(s, logged, pending, events[0]);
      hide ReferenceInv, Next;
      ReferenceRun(Next(s, events[0]), LoggedReference(logged, [events[0]]), Pending(pending, [events[0]]),
                   events[1..]);
    }
  }

  /** Over every run, with restarts and failed starts. In memory are the messages recorded, in the rollout exactly
    * the logged ones among them; a rebuild gives the history of the run if and only if all of it was logged. The
    * token counts always come back. The reference that comes back is that of the last logged update, and it is the
    * one in memory if and only if no start has failed since or that failed start had the same context. */
  lemma RebuiltAfterRestart(events: seq<Event>)
    ensures var s, history := Run(FRESH, events), History([], FRESH, events);
            var rebuilt := Rebuilt(s.rollout);
            && s.manager.items == Messages(history) && rebuilt.items == Messages(OnlyLogged(history))
            && (rebuilt.items == s.manager.items <==> AllLogged(history))
            && rebuilt.tokenInfo == s.manager.tokenInfo
            && rebuilt.reference == LoggedReference(None, events)
            && (rebuilt.reference == s.manager.reference <==>
                Pending(None, events).None? || Pending(None, events) == LoggedReference(None, events))
  {
    assert HistoryInv(FRESH, []) && ReferenceInv(FRESH, None, None);
    HistoryRun(FRESH, [], events);
    ReferenceRun(FRESH, None, None, events);
    OnlyLoggedFacts(History([], FRESH, events));
    hide History, OnlyLogged, Rebuilt, Run, Pending, LoggedReference;
  }

  predicate Starts(event: Event) {
    event.Does? ==> !event.operation.UpdateUnlogged?
  }

  function Logged(events: seq<Event>): seq<Event> {
    if events == [] then []
    else (if events[0].Does? && events[0].operation.RecordUnlogged? then [] else [events[0]]) + Logged(events[1..])
  }

  predicate LogsAll(event: Event) {
    event.Does? ==> IsLogged(event.operation)
  }

  lemma {:induction false} EverythingLogged(s: Session, history: seq<Entry>, events: seq<Event>)
    requires AllLogged(history) && forall event <- events :: LogsAll(event)
    ensures AllLogged(History(history, s, events)) && Pending(None, events) == None
    decreases |events|
  {
    if events != [] {
      OnlyLoggedFacts(history);
      assert LogsAll(events[0]);
      hide OnlyLogged, Appended, Next;
      EverythingLogged(Next(s, events[0]), HistoryAfter(history, s.manager, events[0]), events[1..]);
    }
  }

  lemma {:induction false} UnloggedLeaveNoTrace(s: Session, t: Session, events: seq<Event>)
    requires s.rollout == t.rollout && s.manager.reference == t.manager.reference
    requires forall event <- events :: Starts(event)
    ensures Run(s, events).rollout == Run(t, Logged(events)).rollout
    ensures forall event <- Logged(events) :: LogsAll(event)
    decreases |events|
  {
    if events != [] {
      var next := Next(s, events[0]);
      assert Starts(events[0]);
      if events[0].Does? && events[0].operation.RecordUnlogged? {
        assert s.rollout + [] == s.rollout && Logged(events) == Logged(events[1..]);
        UnloggedLeaveNoTrace(next, t, events[1..]);
      } else {
        assert Logged(events)[1..] == Logged(events[1..]);
        hide ContextMessages, Rebuilt;
        UnloggedLeaveNoTrace(next, Next(t, events[0]), events[1..]);
      }
    }
  }

  /** Over a run without failed starts, what is rebuilt is the manager of the same run without its unlogged messages. */
  lemma RebuiltDropsUnlogged(events: seq<Event>)
    requires forall event <- events :: Starts(event)
    ensures Same(Rebuilt(Run(FRESH, events).rollout), Run(FRESH, Logged(events)).manager)
  {
    UnloggedLeaveNoTrace(FRESH, FRESH, events);
    EverythingLogged(FRESH, [], Logged(events));
    hide Rebuilt, Run, Logged, History, Pending, LoggedReference, Messages;
    RebuiltAfterRestart(Logged(events));
  }

  /** A goal's objective changes while no turn runs: the message is in memory and gone after a restart. */
  lemma UnloggedMessageIsForgotten(text: string)
    ensures var s := Run(FRESH, [Does(RecordUnlogged(text))]);
            s.manager.items == [Conversation(text)] && Rebuilt(s.rollout).items == []
  {
    var event := Does(RecordUnlogged(text));
    assert [event][1..] == [];
    assert Run(FRESH, [event]) == Next(FRESH, event);
  }

  // ---------- What a reader knows ----------

  /** What a reader of the history knows of a field, in memory and in the rollout. */
  datatype Knowledge = Knowledge(memory: Option<string>, rollout: Option<string>)

  /** What a reader knows once told a context beside a reference. */
  function Learned(known: Option<string>, reference: Option<TurnContext>, context: TurnContext, field: Field)
    : Option<string>
  {
    match reference
    case None => Some(FullValue(context, field))
    case Some(previous) =>
      if Tracked(field) && Display(previous, field) != Display(context, field) then Some(Display(context, field))
      else known
  }

  function KnowledgeAfter(k: Knowledge, s: State, event: Event, field: Field): Knowledge {
    match event
    case Restarts => Knowledge(k.rollout, k.rollout)
    case Does(Update(context)) =>
      Knowledge(Learned(k.memory, s.reference, context, field), Learned(k.rollout, s.reference, context, field))
    case Does(UpdateUnlogged(context)) => k.(memory := Learned(k.memory, s.reference, context, field))
    case Does(Compact(replacement)) => Knowledge(Reading(replacement, field), Reading(replacement, field))
    case Does(_) => k
  }

  function Known(k: Knowledge, s: Session, events: seq<Event>, field: Field): Knowledge
    decreases |events|
  {
    if events == [] then k
    else Known(KnowledgeAfter(k, s.manager, events[0], field), Next(s, events[0]), events[1..], field)
  }

  ghost predicate KnowledgeInv(s: Session, k: Knowledge, field: Field) {
    Reading(s.manager.items, field) == k.memory && Reading(Rebuilt(s.rollout).items, field) == k.rollout
  }

  lemma {:induction false} ConversationsSayNothing(known: Option<string>, messages: seq<Message>, field: Field)
    requires forall message <- messages :: message.Conversation?
    ensures ReadFrom(known, messages, field) == known
    decreases |messages|
  {
    if messages != [] {
      ConversationsSayNothing(known, messages[1..], field);
    }
  }

  lemma AppendedRead(known: Option<string>, s: State, operation: Operation, field: Field)
    requires !operation.Compact?
    ensures ReadFrom(known, Appended(s, operation), field) ==
            if IsUpdate(operation) then Learned(known, s.reference, operation.context, field) else known
  {
    if IsUpdate(operation) {
      hide Display, InitialMessages, UpdateMessages, FullValue, Tracked;
      match s.reference
      case None => FullMessagesRead(known, operation.context, field);
      case Some(previous) => UpdateMessagesRead(known, previous, operation.context, field);
    } else {
      ConversationsSayNothing(known, Appended(s, operation), field);
    }
  }

  lemma KnowledgeNext(s: Session, k: Knowledge, event: Event, field: Field)
    requires KnowledgeInv(s, k, field)
    ensures KnowledgeInv(Next(s, event), KnowledgeAfter(k, s.manager, event, field), field)
  {
    match event
    case Restarts => hide Rebuilt;
    case Does(operation) =>
      var rebuilt, added := Rebuilt(s.rollout), Appended(s.manager, operation);
      assert Next(s, event).manager == Do(s.manager, operation);
      DoIsEffect(s.manager, operation);
      RebuiltNext(s, operation);
      EffectFacts(s.manager, added, operation);
      EffectFacts(rebuilt, added, operation);
      ReadConcat(None, s.manager.items, added, field);
      ReadConcat(None, rebuilt.items, added, field);
      hide Rebuilt, Do, Log, Effect, Next, ReadFrom, Learned, Appended;
      if !operation.Compact? {
        AppendedRead(k.memory, s.manager, operation, field);
        AppendedRead(k.rollout, s.manager, operation, field);
      }
  }

  lemma {:induction false} KnowledgeRun(s: Session, k: Knowledge, events: seq<Event>, field: Field)
    requires KnowledgeInv(s, k, field)
    ensures KnowledgeInv(Run(s, events), Known(k, s, events, field), field)
    decreases |events|
  {
    hide KnowledgeInv, KnowledgeAfter, Next;
    if events != [] {
      KnowledgeNext(s, k, events[0], field);
      KnowledgeRun(Next(s, events[0]), KnowledgeAfter(k, s.manager, events[0], field), events[1..], field);
    }
  }

  const IGNORANT := Knowledge(None, None)

  /** Over every run: what a reader of the history in memory knows of a field, and what a reader would know after a
    * restart, follow from the contexts injected, told as changes or lost, whatever else is recorded. */
  lemma KnowledgeIsExact(events: seq<Event>, field: Field)
    ensures var s, k := Run(FRESH, events), Known(IGNORANT, FRESH, events, field);
            Reading(s.manager.items, field) == k.memory && Reading(Rebuilt(s.rollout).items, field) == k.rollout
  {
    assert KnowledgeInv(FRESH, IGNORANT, field);
    KnowledgeRun(FRESH, IGNORANT, events, field);
  }

  // ---------- Where memory and rollout part ----------

  /** Memory and rollout tell the same; memory is ahead by the context of a failed start; or a restart came while it
    * was, so that later changes were told against a context the history has lost. A compaction mends it. */
  datatype Trail = Sound | Ahead | Misled

  function TrailAfter(trail: Trail, event: Event): Trail {
    match event
    case Restarts => if trail == Ahead then Misled else trail
    case Does(UpdateUnlogged(_)) => if trail == Sound then Ahead else trail
    case Does(Compact(_)) => Sound
    case Does(_) => trail
  }

  function TrailOf(trail: Trail, events: seq<Event>): Trail
    decreases |events|
  {
    if events == [] then trail else TrailOf(TrailAfter(trail, events[0]), events[1..])
  }

  ghost predicate Agree(a: State, b: State) {
    a.reference == b.reference && forall field :: Reading(a.items, field) == Reading(b.items, field)
  }

  ghost predicate SoundInv(s: Session, trail: Trail) {
    trail == Sound ==> Agree(s.manager, Rebuilt(s.rollout))
  }

  lemma AgreeAfter(a: State, b: State, messages: seq<Message>, operation: Operation)
    requires Agree(a, b) || operation.Compact?
    ensures Agree(Effect(a, messages, operation), Effect(b, messages, operation))
  {
    if !operation.Compact? {
      forall field ensures Reading(a.items + messages, field) == Reading(b.items + messages, field) {
        assert Reading(a.items, field) == Reading(b.items, field);
        ReadConcat(None, a.items, messages, field);
        ReadConcat(None, b.items, messages, field);
      }
    }
  }

  lemma AgreeWithConversations(a: State, b: State, messages: seq<Message>)
    requires Agree(a, b) && forall message <- messages :: message.Conversation?
    ensures Agree(a.(items := a.items + messages), b)
  {
    forall field ensures Reading(a.items + messages, field) == Reading(b.items, field) {
      assert Reading(a.items, field) == Reading(b.items, field);
      ReadConcat(None, a.items, messages, field);
      ConversationsSayNothing(Reading(a.items, field), messages, field);
    }
  }

  lemma SameAgree(a: State, b: State, c: State, d: State)
    requires Same(a, b) && Same(c, d) && Agree(b, d)
    ensures Agree(a, c)
  {
  }

  lemma SoundNext(s: Session, trail: Trail, event: Event)
    requires SoundInv(s, trail)
    ensures SoundInv(Next(s, event), TrailAfter(trail, event))
  {
    match event
    case Restarts => hide Rebuilt;
    case Does(operation) =>
      var rebuilt, added := Rebuilt(s.rollout), Appended(s.manager, operation);
      var t := Next(s, event);
      assert t.manager == Do(s.manager, operation);
      DoIsEffect(s.manager, operation);
      RebuiltNext(s, operation);
      if TrailAfter(trail, event) == Sound {
        if operation.RecordUnlogged? {
          AgreeWithConversations(s.manager, rebuilt, added);
          hide Rebuilt, Agree, Do, Log, Appended;
          SameAgree(t.manager, Effect(s.manager, added, operation), Rebuilt(t.rollout), rebuilt);
        } else {
          hide Rebuilt, Do, Log, Appended, Effect, Agree;
          AgreeAfter(s.manager, rebuilt, added, operation);
          SameAgree(t.manager, Effect(s.manager, added, operation),
                    Rebuilt(t.rollout), Effect(rebuilt, added, operation));
        }
      }
  }

  lemma {:induction false} SoundRun(s: Session, trail: Trail, events: seq<Event>)
    requires SoundInv(s, trail)
    ensures SoundInv(Run(s, events), TrailOf(trail, events))
    decreases |events|
  {
    hide SoundInv, Next, TrailAfter;
    if events != [] {
      SoundNext(s, trail, events[0]);
      SoundRun(Next(s, events[0]), TrailAfter(trail, events[0]), events[1..]);
    }
  }

  /** Unless a start has failed since the last compaction, the reference and everything a reader knows come back,
    * whatever other messages the rollout lacks. */
  lemma ReaderSurvivesRestart(events: seq<Event>)
    requires TrailOf(Sound, events) == Sound
    ensures var s := Run(FRESH, events); Agree(s.manager, Rebuilt(s.rollout))
  {
    assert SoundInv(FRESH, Sound);
    SoundRun(FRESH, Sound, events);
  }

  // ---------- Diffs are enough ----------

  /** Whether a reader has been told a tracked field's value after an operation: a full injection shows it or it
    * reads as absent anyway, and a change tells it. */
  predicate TellsAfter(told: bool, s: State, operation: Operation, field: Field) {
    if !IsUpdate(operation) then told
    else if s.reference.None? then
      Shown(operation.context, field) || Display(operation.context, field) == Absent(field)
    else told || Display(s.reference.value, field) != Display(operation.context, field)
  }

  predicate Tells(told: bool, s: Session, events: seq<Event>, field: Field)
    decreases |events|
  {
    if events == [] then told
    else
      Tells(if events[0].Does? then TellsAfter(told, s.manager, events[0].operation, field) else told,
            Next(s, events[0]), events[1..], field)
  }

  function FullAfter(full: Option<TurnContext>, s: State, event: Event): Option<TurnContext> {
    if event.Does? && IsUpdate(event.operation) && s.reference.None? then Some(event.operation.context) else full
  }

  /** The context last injected in full. */
  function LastFull(full: Option<TurnContext>, s: Session, events: seq<Event>): Option<TurnContext>
    decreases |events|
  {
    if events == [] then full
    else LastFull(FullAfter(full, s.manager, events[0]), Next(s, events[0]), events[1..])
  }

  predicate Told(s: State, field: Field) {
    s.reference.Some? ==> Reading(s.items, field) == Some(Display(s.reference.value, field))
  }

  /** `told` and `full` say exactly what the history tells of a field. */
  predicate ToldInv(s: State, told: bool, full: Option<TurnContext>, field: Field) {
    s.reference.Some? ==>
      && full.Some?
      && (if Tracked(field) then Told(s, field) <==> told
          else Reading(s.items, field) == Some(FullValue(full.value, field)))
  }

  lemma LearnedTells(
    known: Option<string>, told: bool, full: Option<TurnContext>, s: State, operation: Operation, field: Field)
    requires IsUpdate(operation) && ToldInv(s, told, full, field) && known == Reading(s.items, field)
    ensures var learned := Learned(known, s.reference, operation.context, field);
            var next := FullAfter(full, s, Does(operation));
            && next.Some?
            && (if Tracked(field)
                then learned == Some(Display(operation.context, field)) <==> TellsAfter(told, s, operation, field)
                else learned == Some(FullValue(next.value, field)))
  {
    hide Display, Shown, Absent, Tracked, Reading;
  }

  lemma DoTells(s: State, told: bool, full: Option<TurnContext>, operation: Operation, field: Field)
    requires ToldInv(s, told, full, field)
    ensures ToldInv(Do(s, operation), TellsAfter(told, s, operation, field), FullAfter(full, s, Does(operation)), field)
  {
    if IsUpdate(operation) {
      UpdateReads(s, operation, field);
      LearnedTells(Reading(s.items, field), told, full, s, operation, field);
      hide Do, Reading, Learned, Display, TellsAfter, FullAfter, FullValue, Tracked;
    } else if !operation.Compact? {
      DoIsEffect(s, operation);
      ReadConcat(None, s.items, Appended(s, operation), field);
      AppendedRead(Reading(s.items, field), s, operation, field);
      hide Do, Appended, ReadFrom, Display, FullValue, Tracked;
    }
  }

  lemma NextTells(s: Session, told: bool, full: Option<TurnContext>, trail: Trail, event: Event, field: Field)
    requires trail == Misled || ToldInv(s.manager, told, full, field)
    requires SoundInv(s, trail)
    ensures TrailAfter(trail, event) == Misled
            || ToldInv(Next(s, event).manager,
                       if event.Does? then TellsAfter(told, s.manager, event.operation, field) else told,
                       FullAfter(full, s.manager, event), field)
  {
    match event
    case Restarts => hide Rebuilt;
    case Does(operation) =>
      assert Next(s, event).manager == Do(s.manager, operation);
      if trail != Misled {
        hide Do, Next, ToldInv, TellsAfter;
        DoTells(s.manager, told, full, operation, field);
      }
  }

  lemma {:induction false} RunTells(
    s: Session, told: bool, full: Option<TurnContext>, trail: Trail, events: seq<Event>, field: Field)
    requires trail == Misled || ToldInv(s.manager, told, full, field)
    requires SoundInv(s, trail)
    ensures TrailOf(trail, events) == Misled
            || ToldInv(Run(s, events).manager, Tells(told, s, events, field), LastFull(full, s, events), field)
    decreases |events|
  {
    hide ToldInv, SoundInv, Next, TellsAfter, FullAfter, TrailAfter;
    if events != [] {
      NextTells(s, told, full, trail, events[0], field);
      SoundNext(s, trail, events[0]);
      RunTells(Next(s, events[0]),
               if events[0].Does? then TellsAfter(told, s.manager, events[0].operation, field) else told,
               FullAfter(full, s.manager, events[0]), TrailAfter(trail, events[0]), events[1..], field);
    }
  }

  lemma FullValueIsDisplay(context: TurnContext, field: Field)
    requires !Tracked(field)
    ensures FullValue(context, field) == Display(context, field)
  {
  }

  /** Over every run that no restart has misled, whenever a reference context is held: the history tells a tracked
    * field exactly when the last full injection showed it, or it read as absent anyway, or it has changed since;
    * and a field that updates do not track exactly when it displays as it did in the last full injection. */
  lemma DiffsAreEnoughIff(events: seq<Event>, field: Field)
    requires TrailOf(Sound, events) != Misled
    ensures var s, full := Run(FRESH, events).manager, LastFull(None, FRESH, events);
            s.reference.Some? ==>
              && full.Some?
              && (Reading(s.items, field) == Some(Display(s.reference.value, field)) <==>
                  if Tracked(field) then Tells(false, FRESH, events, field)
                  else Display(full.value, field) == Display(s.reference.value, field))
  {
    assert SoundInv(FRESH, Sound);
    RunTells(FRESH, false, None, Sound, events, field);
    var full := LastFull(None, FRESH, events);
    if full.Some? && !Tracked(field) {
      FullValueIsDisplay(full.value, field);
    }
    hide Display, FullValue, Tracked, Reading;
  }

  /** The guidance of the turn mode is told exactly when the last full injection was in the same mode, the execution
    * boundary exactly when it was under the same permission profile. */
  lemma GuidanceToldIff(events: seq<Event>)
    requires TrailOf(Sound, events) != Misled && Run(FRESH, events).manager.reference.Some?
    ensures var s, full := Run(FRESH, events).manager, LastFull(None, FRESH, events);
            var reference := s.reference.value;
            && full.Some?
            && (Reading(s.items, ModeGuidance) == Some(Display(reference, ModeGuidance)) <==>
                full.value.planMode == reference.planMode)
            && (Reading(s.items, ExecutionBoundary) == Some(Display(reference, ExecutionBoundary)) <==>
                full.value.permissionProfile == reference.permissionProfile)
  {
    DiffsAreEnoughIff(events, ModeGuidance);
    DiffsAreEnoughIff(events, ExecutionBoundary);
    UntrackedFollow(LastFull(None, FRESH, events).value, Run(FRESH, events).manager.reference.value);
    hide Display, Run, LastFull, Tells, Reading;
  }

  /** A thread starts in one turn mode and then takes a turn in the other: the history keeps the guidance of the
    * first. */
  lemma GuidanceOfFirstModeStays(context: TurnContext)
    ensures var other := context.(planMode := !context.planMode);
            var s := Run(FRESH, [Does(Update(context)), Does(Update(other))]).manager;
            && s.reference == Some(other)
            && Reading(s.items, ModeGuidance) == Some(Display(context, ModeGuidance))
            && Display(context, ModeGuidance) != Display(other, ModeGuidance)
  {
    var other := context.(planMode := !context.planMode);
    var first, second := Does(Update(context)), Does(Update(other));
    var s1 := Next(FRESH, first);
    var s2 := Next(s1, second);
    hide InitialMessages, UpdateMessages, ReadFrom, FullValue;
    assert [first, second][1..] == [second] && [second][1..] == [];
    assert s1.manager.items == InitialMessages(context);
    assert s2.manager.items == InitialMessages(context) + UpdateMessages(context, other);
    ReadConcat(None, InitialMessages(context), UpdateMessages(context, other), ModeGuidance);
    FullMessagesRead(None, context, ModeGuidance);
    UpdateMessagesRead(Some(FullValue(context, ModeGuidance)), context, other, ModeGuidance);
    FullValueIsDisplay(context, ModeGuidance);
    UntrackedFollow(context, other);
    hide Display;
    assert Run(FRESH, [first, second]) == Run(s1, [second]) == Run(s2, []);
  }

  /** Every context injected in full along the run satisfies `ProfileShown`. */
  predicate FullsShown(s: Session, events: seq<Event>)
    decreases |events|
  {
    events == [] || (FullShown(s.manager, events[0]) && FullsShown(Next(s, events[0]), events[1..]))
  }

  predicate FullShown(s: State, event: Event) {
    event.Does? && IsUpdate(event.operation) && s.reference.None? ==> ProfileShown(event.operation.context)
  }

  /** Every update beside a reference along the run leaves the field as it was. */
  predicate FieldKept(s: Session, events: seq<Event>, field: Field)
    decreases |events|
  {
    events == [] || (FieldKeptBy(s.manager, events[0], field) && FieldKept(Next(s, events[0]), events[1..], field))
  }

  predicate FieldKeptBy(s: State, event: Event, field: Field) {
    event.Does? && IsUpdate(event.operation) && s.reference.Some? ==>
      Display(event.operation.context, field) == Display(s.reference.value, field)
  }

  /** The history tells the field by `told` and `full`. */
  predicate Telling(reference: Option<TurnContext>, told: bool, full: Option<TurnContext>, field: Field) {
    reference.Some? ==>
      if Tracked(field) then told
      else full.Some? && Display(full.value, field) == Display(reference.value, field)
  }

  lemma NextTelling(s: Session, told: bool, full: Option<TurnContext>, trail: Trail, event: Event, field: Field)
    requires trail == Misled || Telling(s.manager.reference, told, full, field)
    requires SoundInv(s, trail)
    requires ProfileField(field) ==> FullShown(s.manager, event)
    requires !Tracked(field) ==> FieldKeptBy(s.manager, event, field)
    ensures TrailAfter(trail, event) == Misled
            || Telling(Next(s, event).manager.reference,
                       if event.Does? then TellsAfter(told, s.manager, event.operation, field) else told,
                       FullAfter(full, s.manager, event), field)
  {
    match event
    case Restarts => hide Rebuilt, Reading;
    case Does(operation) =>
      DoIsEffect(s.manager, operation);
      assert Next(s, event).manager == Do(s.manager, operation);
      if !ProfileField(field) && IsUpdate(operation) {
        AbsentOrShown(operation.context, field);
      }
      hide Do, Next, Rebuilt, Appended;
  }

  lemma {:induction false} RunTelling(
    s: Session, told: bool, full: Option<TurnContext>, trail: Trail, events: seq<Event>, field: Field)
    requires trail == Misled || Telling(s.manager.reference, told, full, field)
    requires SoundInv(s, trail)
    requires ProfileField(field) ==> FullsShown(s, events)
    requires !Tracked(field) ==> FieldKept(s, events, field)
    ensures TrailOf(trail, events) == Misled
            || Telling(Run(s, events).manager.reference, Tells(told, s, events, field), LastFull(full, s, events),
                       field)
    decreases |events|
  {
    hide Telling, SoundInv, Next, TellsAfter, FullAfter, TrailAfter, FullShown, FieldKeptBy;
    if events != [] {
      NextTelling(s, told, full, trail, events[0], field);
      SoundNext(s, trail, events[0]);
      RunTelling(Next(s, events[0]),
                 if events[0].Does? then TellsAfter(told, s.manager, events[0].operation, field) else told,
                 FullAfter(full, s.manager, events[0]), TrailAfter(trail, events[0]), events[1..], field);
    }
  }

  /** So whenever a reference context is held, the history tells every displayed field of it: the tracked ones
    * always but for the two profile texts, which every full injection along the run has to show, and the others as
    * long as no update changes them. */
  lemma DiffsAreEnough(events: seq<Event>, field: Field)
    requires TrailOf(Sound, events) != Misled
    requires ProfileField(field) ==> FullsShown(FRESH, events)
    requires !Tracked(field) ==> FieldKept(FRESH, events, field)
    ensures var s := Run(FRESH, events).manager;
            s.reference.Some? ==> Reading(s.items, field) == Some(Display(s.reference.value, field))
  {
    assert SoundInv(FRESH, Sound);
    RunTelling(FRESH, false, None, Sound, events, field);
    hide Run, Tells, LastFull, FullsShown, FieldKept, TrailOf, Reading, Display, Tracked;
    DiffsAreEnoughIff(events, field);
  }

  predicate AllTold(s: State) {
    forall field: Field :: Told(s, field)
  }

  /** Every state along the run tells every displayed field. */
  predicate AlwaysTold(s: Session, events: seq<Event>)
    decreases |events|
  {
    AllTold(s.manager) && (events != [] ==> AlwaysTold(Next(s, events[0]), events[1..]))
  }

  /** A full injection shows the profile texts, and a change keeps turn mode and permission profile. */
  predicate TellsAll(s: State, event: Event) {
    event.Does? && IsUpdate(event.operation) ==>
      var context := event.operation.context;
      if s.reference.None? then ProfileShown(context)
      else
        && context.planMode == s.reference.value.planMode
        && context.permissionProfile == s.reference.value.permissionProfile
  }

  predicate AlwaysTells(s: Session, events: seq<Event>)
    decreases |events|
  {
    events == [] || (TellsAll(s.manager, events[0]) && AlwaysTells(Next(s, events[0]), events[1..]))
  }

  /** What a full injection or a change leaves told. */
  lemma UpdateReads(s: State, operation: Operation, field: Field)
    requires IsUpdate(operation)
    ensures var t := Do(s, operation);
            && t.reference == Some(operation.context)
            && Reading(t.items, field) == Learned(Reading(s.items, field), s.reference, operation.context, field)
  {
    DoIsEffect(s, operation);
    ReadConcat(None, s.items, Appended(s, operation), field);
    AppendedRead(Reading(s.items, field), s, operation, field);
    hide Do, Appended, ReadFrom, Learned;
  }

  lemma FullTellsIff(s: State, operation: Operation)
    requires IsUpdate(operation) && s.reference.None?
    ensures AllTold(Do(s, operation)) <==> ProfileShown(operation.context)
  {
    var context := operation.context;
    FullMessagesExact(context);
    forall field ensures Told(Do(s, operation), field) <==>
                         Reading(InitialMessages(context), field) == Some(Display(context, field)) {
      UpdateReads(s, operation, field);
      FullMessagesRead(None, context, field);
      hide Do, InitialMessages, Display, FullValue, ReadFrom;
    }
    hide Do, InitialMessages, Display, ProfileShown, Reading;
  }

  lemma ChangeTellsIff(s: State, operation: Operation)
    requires IsUpdate(operation) && s.reference.Some? && AllTold(s)
    ensures AllTold(Do(s, operation)) <==>
            && operation.context.planMode == s.reference.value.planMode
            && operation.context.permissionProfile == s.reference.value.permissionProfile
  {
    var previous, context := s.reference.value, operation.context;
    UntrackedFollow(previous, context);
    hide Display, Do, Reading;
    forall field ensures Told(Do(s, operation), field) <==>
                         Tracked(field) || Display(previous, field) == Display(context, field) {
      assert Told(s, field);
      UpdateReads(s, operation, field);
    }
    assert !Tracked(ModeGuidance) && !Tracked(ExecutionBoundary);
  }

  lemma NextAllTold(s: Session, trail: Trail, event: Event)
    requires AllTold(s.manager) && SoundInv(s, trail) && (event.Restarts? ==> trail == Sound)
    ensures AllTold(Next(s, event).manager) <==> TellsAll(s.manager, event)
  {
    match event
    case Restarts =>
      hide Rebuilt, Display, ReadFrom;
      forall field: Field ensures Told(Next(s, event).manager, field) {
        assert Told(s.manager, field);
        assert Reading(s.manager.items, field) == Reading(Rebuilt(s.rollout).items, field);
      }
    case Does(operation) =>
      assert Next(s, event).manager == Do(s.manager, operation);
      if IsUpdate(operation) {
        hide Do, AllTold, ProfileShown;
        if s.manager.reference.None? {
          FullTellsIff(s.manager, operation);
        } else {
          ChangeTellsIff(s.manager, operation);
        }
      } else {
        OtherTells(s.manager, operation);
      }
  }

  lemma OtherTells(s: State, operation: Operation)
    requires AllTold(s) && !IsUpdate(operation)
    ensures AllTold(Do(s, operation))
  {
    DoIsEffect(s, operation);
    forall field: Field ensures Told(Do(s, operation), field) {
      assert Told(s, field);
      if !operation.Compact? {
        ReadConcat(None, s.items, Appended(s, operation), field);
        AppendedRead(Reading(s.items, field), s, operation, field);
      }
      hide Do, Appended, ReadFrom, Display;
    }
  }

  /** No restart along the run comes while memory is ahead. */
  predicate NeverMisled(trail: Trail, events: seq<Event>)
    decreases |events|
  {
    events == []
    || ((events[0].Restarts? ==> trail == Sound) && NeverMisled(TrailAfter(trail, events[0]), events[1..]))
  }

  lemma {:induction false} AlwaysToldFrom(s: Session, trail: Trail, events: seq<Event>)
    requires AllTold(s.manager) && SoundInv(s, trail) && NeverMisled(trail, events)
    ensures AlwaysTold(s, events) <==> AlwaysTells(s, events)
    decreases |events|
  {
    hide AllTold, SoundInv, Next, TellsAll, TrailAfter;
    if events != [] {
      NextAllTold(s, trail, events[0]);
      SoundNext(s, trail, events[0]);
      if AllTold(Next(s, events[0]).manager) {
        AlwaysToldFrom(Next(s, events[0]), TrailAfter(trail, events[0]), events[1..]);
      }
    }
  }

  /** Over every run in which no restart comes while memory is ahead: every state tells every displayed field
    * exactly when every full injection has the profile texts both present or both reading as absent, and no change
    * of context changes the turn mode or the permission profile. */
  lemma AlwaysToldIff(events: seq<Event>)
    requires NeverMisled(Sound, events)
    ensures AlwaysTold(FRESH, events) <==> AlwaysTells(FRESH, events)
  {
    assert SoundInv(FRESH, Sound);
    AlwaysToldFrom(FRESH, Sound, events);
  }

  // ---------- Failed starts ----------

  lemma FourEvents(s: Session, k: Knowledge, field: Field, a: Event, b: Event, c: Event, d: Event)
    ensures var s1 := Next(s, a);
            var s2 := Next(s1, b);
            var s3 := Next(s2, c);
            var k1 := KnowledgeAfter(k, s.manager, a, field);
            var k2 := KnowledgeAfter(k1, s1.manager, b, field);
            var k3 := KnowledgeAfter(k2, s2.manager, c, field);
            && Run(s, [a, b, c, d]) == Next(s3, d)
            && Known(k, s, [a, b, c, d], field) == KnowledgeAfter(k3, s3.manager, d, field)
  {
    hide Next, KnowledgeAfter;
    FourRest(a, b, c, d);
    var s1, k1 := Next(s, a), KnowledgeAfter(k, s.manager, a, field);
    var s2, k2 := Next(s1, b), KnowledgeAfter(k1, s1.manager, b, field);
    var s3, k3 := Next(s2, c), KnowledgeAfter(k2, s2.manager, c, field);
    assert Run(s, [a, b, c, d]) == Run(s1, [b, c, d]);
    assert Run(s1, [b, c, d]) == Run(s2, [c, d]);
    assert Run(s2, [c, d]) == Run(s3, [d]);
    assert Run(s3, [d]) == Run(Next(s3, d), []);
    assert Known(k, s, [a, b, c, d], field) == Known(k1, s1, [b, c, d], field);
    assert Known(k1, s1, [b, c, d], field) == Known(k2, s2, [c, d], field);
    assert Known(k2, s2, [c, d], field) == Known(k3, s3, [d], field);
    assert Known(k3, s3, [d], field) == Known(KnowledgeAfter(k3, s3.manager, d, field), Next(s3, d), [], field);
  }

  lemma FourRest(a: Event, b: Event, c: Event, d: Event)
    ensures [a, b, c, d][1..] == [b, c, d] && [b, c, d][1..] == [c, d] && [c, d][1..] == [d] && [d][1..] == []
  {
  }

  /** A start fails with a new model in memory only; the next turn has that model too, so its change is not told again;
    * after a restart the reference has the new model and the history the old one. */
  lemma FailedStartMisleads(context: TurnContext, model: string)
    requires context.model != model
    ensures var other := context.(model := model);
            var events := [Does(Update(context)), Does(UpdateUnlogged(other)), Does(Update(other)), Restarts];
            var s := Run(FRESH, events).manager;
            s.reference == Some(other) && Reading(s.items, Model) == Some(context.model)
  {
    var other := context.(model := model);
    var a, b, c := Does(Update(context)), Does(UpdateUnlogged(other)), Does(Update(other));
    var events := [a, b, c, Restarts];
    KnowledgeIsExact(events, Model);
    RebuiltAfterRestart(events);
    FourEvents(FRESH, IGNORANT, Model, a, b, c, Restarts);
    FourRest(a, b, c, Restarts);
    assert FullValue(context, Model) == context.model && Tracked(Model);
    assert Display(context, Model) == context.model && Display(other, Model) == model;
    hide FullValue, Rebuilt, Display, Tracked, ContextMessages, Reading, History, Known, Log, Run;
    LoggedFour(context, other);
    assert Pending(None, events) == None;
  }

  lemma LoggedFour(context: TurnContext, other: TurnContext)
    ensures var events := [Does(Update(context)), Does(UpdateUnlogged(other)), Does(Update(other)), Restarts];
            LoggedReference(None, events) == Some(other) && Pending(None, events) == None
  {
    var a, b, c := Does(Update(context)), Does(UpdateUnlogged(other)), Does(Update(other));
    FourRest(a, b, c, Restarts);
    assert LoggedReference(Some(other), [Restarts]) == LoggedReference(Some(other), []);
    assert LoggedReference(Some(context), [c, Restarts]) == LoggedReference(Some(other), [Restarts]);
    assert LoggedReference(Some(context), [b, c, Restarts]) == LoggedReference(Some(context), [c, Restarts]);
    assert Pending(None, [Restarts]) == Pending(None, []);
    assert Pending(Some(other), [c, Restarts]) == Pending(None, [Restarts]);
    assert Pending(None, [b, c, Restarts]) == Pending(Some(other), [c, Restarts]);
  }
}
