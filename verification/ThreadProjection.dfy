/** Projecting a thread's events into turn views, and merging the rollout's response items into them. */
module ThreadProjection {
  import opened Text
  import opened Wrappers

  type TurnId = string

  datatype Status = InProgress | Completed | Interrupted | Failed

  datatype Invocation = Invocation(
    id: string,
    toolCallId: Option<string>,
    toolName: Option<string>,
    approvalId: Option<string>,
    requestId: Option<string>,
    status: string,
    mutating: Option<bool>,
    reason: Option<string>,
    message: Option<string>,
    outputPreview: Option<string>)

  datatype ThreadItem =
    | UserMessage(text: string, input: seq<Part>)
    | AssistantMessage(eventId: Option<string>, reply: Option<string>)
    | Reasoning(eventId: Option<string>, summary: seq<string>, content: seq<string>)
    | ToolInvocation(invocation: Invocation)
    | ToolResult(eventId: Option<string>, name: string)
    | ExecOutput(eventId: Option<string>, output: string)
    | OtherItem(eventId: Option<string>, payload: string)

  datatype Part = TextPart(text: string) | ImagePart(source: string)

  datatype TurnView = TurnView(id: TurnId, status: Status, items: seq<ThreadItem>)

  // ---------- Events ----------

  datatype InvocationUpdate =
    | Started(toolCallId: string, toolName: string, mutating: bool)
    | WaitingApproval(approvalId: string, reason: string)
    | WaitingUserInput(requestId: string, reason: string)
    | OutputDelta(chunk: string)
    | InvocationCompleted(toolCallId: string, toolName: string)
    | InvocationFailed(toolCallId: string, toolName: string, message: string)
    | InvocationCancelled(toolCallId: string, toolName: string, reason: string)

  /** `Reported` stands for the event kinds that only add an item of their own; `Unprojected` for those ignored. */
  datatype EventKind =
    | TurnStarted
    | TurnCompleted
    | TurnInterrupted
    | RuntimeError(message: string)
    | AssistantTurn(text: Option<string>)
    | ReasoningDone(summary: seq<string>, content: seq<string>)
    | ToolFinished(name: string)
    | Output(chunk: string)
    | TextDelta
    | Reported(payload: string)
    | ApprovalDecision(approvalId: string, decision: string)
    | UserInputResolved(requestId: string)
    | ToolInvocationEvent(invocationId: string, update: InvocationUpdate)
    | GoalReport(report: string)
    | Unprojected

  datatype Event = Event(eventId: string, turnId: Option<TurnId>, kind: EventKind)

  const GOAL_REPORTS := "system_goal_reports"

  function ItemFor(event: Event): seq<ThreadItem> {
    var id := Some(event.eventId);
    match event.kind
    case AssistantTurn(Some(text)) => [AssistantMessage(id, Some(text))]
    case ReasoningDone(summary, content) => [Reasoning(id, summary, content)]
    case ToolFinished(name) => [ToolResult(id, name)]
    case Output(chunk) => [ExecOutput(id, chunk)]
    case RuntimeError(message) => [OtherItem(id, message)]
    case Reported(payload) => [OtherItem(id, payload)]
    case ApprovalDecision(_, decision) => [OtherItem(id, decision)]
    case UserInputResolved(requestId) => [OtherItem(id, requestId)]
    case GoalReport(report) => [OtherItem(id, report)]
    case _ => []
  }

  function NewInvocation(id: string): Invocation {
    Invocation(id, None, None, None, None, "started", None, None, None, None)
  }

  function UpdatedInvocation(i: Invocation, update: InvocationUpdate): Invocation {
    match update
    case Started(toolCallId, toolName, mutating) =>
      i.(toolCallId := Some(toolCallId), toolName := Some(toolName), approvalId := None, requestId := None,
         status := "started", mutating := Some(mutating), reason := None, message := None)
    case WaitingApproval(approvalId, reason) =>
      i.(approvalId := Some(approvalId), requestId := None, status := "waiting_approval", reason := Some(reason),
         message := None)
    case WaitingUserInput(requestId, reason) =>
      i.(approvalId := None, requestId := Some(requestId), status := "waiting_user_input", reason := Some(reason),
         message := None)
    case OutputDelta(chunk) => i.(outputPreview := Some(i.outputPreview.GetOr("") + chunk))
    case InvocationCompleted(toolCallId, toolName) =>
      i.(toolCallId := Some(toolCallId), toolName := Some(toolName), status := "completed", reason := None,
         message := None, requestId := None)
    case InvocationFailed(toolCallId, toolName, message) =>
      i.(toolCallId := Some(toolCallId), toolName := Some(toolName), status := "failed", reason := None,
         message := Some(message), requestId := None)
    case InvocationCancelled(toolCallId, toolName, reason) =>
      i.(toolCallId := Some(toolCallId), toolName := Some(toolName), status := "cancelled", reason := Some(reason),
         message := None, requestId := None)
  }

  predicate IsInvocation(item: ThreadItem, id: string) {
    item.ToolInvocation? && item.invocation.id == id
  }

  /** Updates the first invocation with the id, appending a new one when there is none. */
  function WithInvocation(items: seq<ThreadItem>, id: string, update: InvocationUpdate): seq<ThreadItem> {
    if items == [] then [ToolInvocation(UpdatedInvocation(NewInvocation(id), update))]
    else if IsInvocation(items[0], id) then
      [ToolInvocation(UpdatedInvocation(items[0].invocation, update))] + items[1..]
    else [items[0]] + WithInvocation(items[1..], id, update)
  }

  /** Settles an invocation that waits for the approval or the user input. */
  function SettledItem(item: ThreadItem, approvalId: Option<string>, requestId: Option<string>, status: string)
    : ThreadItem
  {
    if item.ToolInvocation?
       && ((approvalId.Some? && item.invocation.approvalId == approvalId)
           || (requestId.Some? && item.invocation.requestId == requestId))
    then ToolInvocation(item.invocation.(status := status, reason := None, message := None))
    else item
  }

  function Settled(items: seq<ThreadItem>, approvalId: Option<string>, requestId: Option<string>, status: string)
    : seq<ThreadItem>
  {
    if items == [] then []
    else [SettledItem(items[0], approvalId, requestId, status)] + Settled(items[1..], approvalId, requestId, status)
  }

  // ---------- The fold ----------

  datatype Fold = Fold(turns: seq<TurnView>, current: Option<TurnId>)

  /** `ensure_turn_view`: the turns with a view for `id`. */
  function Ensured(turns: seq<TurnView>, id: TurnId): seq<TurnView> {
    if turns == [] then [TurnView(id, InProgress, [])]
    else if turns[0].id == id then turns
    else [turns[0]] + Ensured(turns[1..], id)
  }

  /** Replaces the first view of `id` by one with the given status and items. */
  function Put(turns: seq<TurnView>, id: TurnId, status: Status, items: seq<ThreadItem>): seq<TurnView> {
    if turns == [] then []
    else if turns[0].id == id then [TurnView(id, status, items)] + turns[1..]
    else [turns[0]] + Put(turns[1..], id, status, items)
  }

  function Lookup(turns: seq<TurnView>, id: TurnId): Option<TurnView> {
    if turns == [] then None else if turns[0].id == id then Some(turns[0]) else Lookup(turns[1..], id)
  }

  /** What an event does to the view of its turn. */
  function Changed(view: TurnView, event: Event, synthetic: bool): (Status, seq<ThreadItem>) {
    match event.kind
    case TurnStarted => (InProgress, view.items)
    case TurnCompleted => (Completed, view.items)
    case TurnInterrupted => (Interrupted, view.items)
    case RuntimeError(_) => (Failed, view.items + ItemFor(event))
    case ApprovalDecision(approvalId, decision) =>
      (view.status, Settled(view.items, Some(approvalId), None, decision) + ItemFor(event))
    case UserInputResolved(requestId) =>
      (view.status, Settled(view.items, None, Some(requestId), "completed") + ItemFor(event))
    case ToolInvocationEvent(id, update) => (view.status, WithInvocation(view.items, id, update))
    case GoalReport(_) => (if synthetic then Completed else view.status, view.items + ItemFor(event))
    case _ => (view.status, view.items + ItemFor(event))
  }

  /** The turn an event is projected to. Turn boundaries name theirs; everything else goes to the current turn first. */
  function Target(current: Option<TurnId>, event: Event): Option<TurnId> {
    match event.kind
    case TurnStarted => event.turnId
    case TurnCompleted => event.turnId
    case TurnInterrupted => event.turnId
    case Unprojected => None
    case GoalReport(_) =>
      Some(if current.Some? then current.value else event.turnId.GetOr(GOAL_REPORTS))
    case _ => if current.Some? then current else event.turnId
  }

  function Current(current: Option<TurnId>, event: Event): Option<TurnId> {
    if event.turnId.None? then current
    else if event.kind.TurnStarted? then event.turnId
    else if (event.kind.TurnCompleted? || event.kind.TurnInterrupted?) && current == event.turnId then None
    else current
  }

  function Projected(f: Fold, event: Event): Fold {
    match Target(f.current, event)
    case None => f
    case Some(id) =>
      var turns := Ensured(f.turns, id);
      var view := Lookup(turns, id).GetOr(TurnView(id, InProgress, []));
      var (status, items) := Changed(view, event, event.turnId.None? && f.current.None?);
      Fold(Put(turns, id, status, items), Current(f.current, event))
  }

  function ProjectAll(f: Fold, events: seq<Event>): Fold
    decreases |events|
  {
    if events == [] then f else ProjectAll(Projected(f, events[0]), events[1..])
  }

  // ---------- Invariants of the fold ----------

  function Ids(turns: seq<TurnView>): seq<TurnId> {
    if turns == [] then [] else [turns[0].id] + Ids(turns[1..])
  }

  predicate Distinct(ids: seq<string>) {
    ids == [] || (ids[0] !in ids[1..] && Distinct(ids[1..]))
  }

  function InvocationIds(items: seq<ThreadItem>): seq<string> {
    if items == [] then []
    else (if items[0].ToolInvocation? then [items[0].invocation.id] else []) + InvocationIds(items[1..])
  }

  predicate CleanItems(items: seq<ThreadItem>) {
    Distinct(InvocationIds(items)) && forall item <- items :: !item.UserMessage?
  }

  predicate CurrentExists(f: Fold) {
    f.current.Some? ==>
      var view := Lookup(f.turns, f.current.value);
      view.Some? && (view.value.status == InProgress || view.value.status == Failed)
  }

  /** Turn ids are unique, invocation ids are unique within a turn, no event makes a user message, and a turn still
    * held as current exists and is in progress or failed. */
  predicate FoldInv(f: Fold) {
    Distinct(Ids(f.turns)) && (forall view <- f.turns :: CleanItems(view.items)) && CurrentExists(f)
  }

  lemma {:induction false} EnsuredFacts(turns: seq<TurnView>, id: TurnId, other: TurnId)
    ensures Ids(Ensured(turns, id)) == Ids(turns) + if id in Ids(turns) then [] else [id]
    ensures Lookup(Ensured(turns, id), other) ==
            if Lookup(turns, other).None? && other == id then Some(TurnView(id, InProgress, []))
            else Lookup(turns, other)
    ensures forall view <- Ensured(turns, id) :: view in turns || view == TurnView(id, InProgress, [])
  {
    if turns == [] {
      assert Ensured(turns, id)[1..] == [];
    } else if turns[0].id != id {
      EnsuredFacts(turns[1..], id, other);
      assert Ensured(turns, id)[1..] == Ensured(turns[1..], id);
    } else {
      assert Ids(turns) + [] == Ids(turns);
    }
  }

  lemma {:induction false} PutFacts(
    turns: seq<TurnView>, id: TurnId, status: Status, items: seq<ThreadItem>, other: TurnId)
    ensures Ids(Put(turns, id, status, items)) == Ids(turns)
    ensures Lookup(Put(turns, id, status, items), other) ==
            if Lookup(turns, other).Some? && other == id then Some(TurnView(id, status, items))
            else Lookup(turns, other)
    ensures forall view <- Put(turns, id, status, items) :: view in turns || view == TurnView(id, status, items)
  {
    if turns != [] {
      PutFacts(turns[1..], id, status, items, other);
      if turns[0].id == id {
        assert Put(turns, id, status, items)[1..] == turns[1..];
      } else {
        assert Put(turns, id, status, items)[1..] == Put(turns[1..], id, status, items);
      }
    }
  }

  lemma {:induction false} LookupIsMember(turns: seq<TurnView>, id: TurnId)
    ensures Lookup(turns, id).Some? <==> id in Ids(turns)
    ensures Lookup(turns, id).Some? ==> Lookup(turns, id).value in turns && Lookup(turns, id).value.id == id
  {
    if turns != [] {
      LookupIsMember(turns[1..], id);
    }
  }

  lemma {:induction false} DistinctAppend(ids: seq<string>, id: string)
    requires Distinct(ids) && id !in ids
    ensures Distinct(ids + [id])
  {
    if ids != [] {
      DistinctAppend(ids[1..], id);
      assert (ids + [id])[1..] == ids[1..] + [id];
    }
  }

  lemma {:induction false} InvocationIdsConcat(a: seq<ThreadItem>, b: seq<ThreadItem>)
    ensures InvocationIds(a + b) == InvocationIds(a) + InvocationIds(b)
  {
    if a == [] {
      assert a + b == b;
    } else {
      assert (a + b)[1..] == a[1..] + b;
      InvocationIdsConcat(a[1..], b);
    }
  }

  lemma {:induction false} SettledFacts(
    items: seq<ThreadItem>, approvalId: Option<string>, requestId: Option<string>, status: string)
    ensures InvocationIds(Settled(items, approvalId, requestId, status)) == InvocationIds(items)
    ensures (forall item <- items :: !item.UserMessage?) ==>
              forall item <- Settled(items, approvalId, requestId, status) :: !item.UserMessage?
  {
    if items != [] {
      SettledFacts(items[1..], approvalId, requestId, status);
      assert Settled(items, approvalId, requestId, status)[1..] == Settled(items[1..], approvalId, requestId, status);
    }
  }

  lemma {:induction false} WithInvocationFacts(items: seq<ThreadItem>, id: string, update: InvocationUpdate)
    ensures InvocationIds(WithInvocation(items, id, update)) ==
            InvocationIds(items) + if id in InvocationIds(items) then [] else [id]
    ensures (forall item <- items :: !item.UserMessage?) ==>
              forall item <- WithInvocation(items, id, update) :: !item.UserMessage?
  {
    var result := WithInvocation(items, id, update);
    if items == [] {
      assert result[1..] == [];
    } else if IsInvocation(items[0], id) {
      assert result[1..] == items[1..];
      assert InvocationIds(items) + [] == InvocationIds(items);
    } else {
      WithInvocationFacts(items[1..], id, update);
      assert result[1..] == WithInvocation(items[1..], id, update);
    }
  }

  lemma ItemForIsPlain(event: Event)
    ensures InvocationIds(ItemFor(event)) == [] && forall item <- ItemFor(event) :: !item.UserMessage?
  {
  }

  lemma CleanWithEvent(items: seq<ThreadItem>, event: Event)
    requires CleanItems(items)
    ensures CleanItems(items + ItemFor(event))
  {
    ItemForIsPlain(event);
    hide ItemFor, InvocationIds, Distinct;
    InvocationIdsConcat(items, ItemFor(event));
    assert InvocationIds(items) + [] == InvocationIds(items);
  }

  lemma CleanSettled(items: seq<ThreadItem>, approvalId: Option<string>, requestId: Option<string>, status: string)
    requires CleanItems(items)
    ensures CleanItems(Settled(items, approvalId, requestId, status))
  {
    SettledFacts(items, approvalId, requestId, status);
    hide Settled, InvocationIds, Distinct;
  }

  lemma CleanWithInvocation(items: seq<ThreadItem>, id: string, update: InvocationUpdate)
    requires CleanItems(items)
    ensures CleanItems(WithInvocation(items, id, update))
  {
    WithInvocationFacts(items, id, update);
    hide WithInvocation, InvocationIds, Distinct;
    assert InvocationIds(items) + [] == InvocationIds(items);
    if id !in InvocationIds(items) {
      DistinctAppend(InvocationIds(items), id);
    }
  }

  lemma ChangedIsClean(view: TurnView, event: Event, synthetic: bool)
    requires CleanItems(view.items)
    ensures CleanItems(Changed(view, event, synthetic).1)
  {
    hide CleanItems, Settled, WithInvocation, ItemFor;
    CleanWithEvent(view.items, event);
    match event.kind {
      case ApprovalDecision(approvalId, decision) =>
        CleanSettled(view.items, Some(approvalId), None, decision);
        CleanWithEvent(Settled(view.items, Some(approvalId), None, decision), event);
      case UserInputResolved(requestId) =>
        CleanSettled(view.items, None, Some(requestId), "completed");
        CleanWithEvent(Settled(view.items, None, Some(requestId), "completed"), event);
      case ToolInvocationEvent(id, update) =>
        CleanWithInvocation(view.items, id, update);
      case _ =>
    }
  }

  lemma ProjectedTurns(f: Fold, event: Event)
    requires Distinct(Ids(f.turns)) && forall view <- f.turns :: CleanItems(view.items)
    ensures var turns := Projected(f, event).turns;
            && Distinct(Ids(turns)) && (forall view <- turns :: CleanItems(view.items))
            && Ids(f.turns) <= Ids(turns)
  {
    hide Changed, CleanItems, Ensured, Put, Lookup, Ids, Distinct, Current;
    var target := Target(f.current, event);
    if target.Some? {
      var id := target.value;
      var turns := Ensured(f.turns, id);
      EnsuredFacts(f.turns, id, id);
      if id !in Ids(f.turns) {
        DistinctAppend(Ids(f.turns), id);
      }
      assert Ids(f.turns) + [] == Ids(f.turns);
      LookupIsMember(f.turns, id);
      EmptyIsClean(id);
      var view := Lookup(turns, id).GetOr(TurnView(id, InProgress, []));
      ChangedIsClean(view, event, event.turnId.None? && f.current.None?);
      var (status, items) := Changed(view, event, event.turnId.None? && f.current.None?);
      PutFacts(turns, id, status, items, id);
    }
  }

  lemma ProjectedCurrent(f: Fold, event: Event)
    requires CurrentExists(f)
    ensures CurrentExists(Projected(f, event))
  {
    hide Changed, Ensured, Put, Lookup;
    var target := Target(f.current, event);
    if target.Some? {
      var id := target.value;
      var turns := Ensured(f.turns, id);
      var other := f.current.GetOr(id);
      EnsuredFacts(f.turns, id, id);
      EnsuredFacts(f.turns, id, other);
      var view := Lookup(turns, id).GetOr(TurnView(id, InProgress, []));
      var (status, items) := Changed(view, event, event.turnId.None? && f.current.None?);
      PutFacts(turns, id, status, items, id);
      PutFacts(turns, id, status, items, other);
      if Current(f.current, event) == target {
        StatusWhileCurrent(f, event, view);
      }
    }
  }

  lemma ProjectedFacts(f: Fold, event: Event)
    requires FoldInv(f)
    ensures FoldInv(Projected(f, event))
    ensures Ids(f.turns) <= Ids(Projected(f, event).turns)
  {
    hide Projected, CurrentExists, CleanItems, Distinct, Ids;
    ProjectedTurns(f, event);
    ProjectedCurrent(f, event);
  }

  lemma EmptyIsClean(id: TurnId)
    ensures CleanItems(TurnView(id, InProgress, []).items)
  {
  }

  /** An event for the turn that stays or becomes current leaves it in progress or failed. */
  lemma StatusWhileCurrent(f: Fold, event: Event, view: TurnView)
    requires Target(f.current, event).Some?
    requires f.current == Target(f.current, event) ==> view.status == InProgress || view.status == Failed
    requires Current(f.current, event) == Target(f.current, event)
    ensures var status := Changed(view, event, event.turnId.None? && f.current.None?).0;
            status == InProgress || status == Failed
  {
  }

  lemma {:induction false} ProjectAllFrom(f: Fold, events: seq<Event>)
    requires FoldInv(f)
    ensures FoldInv(ProjectAll(f, events))
    ensures Ids(f.turns) <= Ids(ProjectAll(f, events).turns)
    decreases |events|
  {
    hide FoldInv, Projected, Ids;
    if events != [] {
      ProjectedFacts(f, events[0]);
      ProjectAllFrom(Projected(f, events[0]), events[1..]);
    }
  }

  lemma {:induction false} FoldFrom(f: Fold, prefix: seq<Event>, rest: seq<Event>)
    requires FoldInv(f)
    ensures FoldInv(ProjectAll(f, prefix + rest))
    ensures Ids(ProjectAll(f, prefix).turns) <= Ids(ProjectAll(f, prefix + rest).turns)
    decreases |prefix|
  {
    hide FoldInv, Projected, Ids;
    if prefix == [] {
      assert prefix + rest == rest;
      ProjectAllFrom(f, rest);
    } else {
      assert (prefix + rest)[1..] == prefix[1..] + rest && (prefix + rest)[0] == prefix[0];
      ProjectedFacts(f, prefix[0]);
      FoldFrom(Projected(f, prefix[0]), prefix[1..], rest);
    }
  }

  /** For every event sequence the invariants hold, and the turns of a prefix are the first turns of the whole. */
  lemma EveryFold(prefix: seq<Event>, rest: seq<Event>)
    ensures var before, after := ProjectAll(Fold([], None), prefix), ProjectAll(Fold([], None), prefix + rest);
            FoldInv(after) && Ids(before.turns) <= Ids(after.turns)
  {
    FoldFrom(Fold([], None), prefix, rest);
  }

  // ---------- In place ----------

  lemma {:induction false} EnsuredAt(turns: seq<TurnView>, id: TurnId, n: nat)
    requires n <= |turns| && forall i | 0 <= i < n :: turns[i].id != id
    ensures n == |turns| ==> Ensured(turns, id) == turns + [TurnView(id, InProgress, [])]
    ensures n < |turns| && turns[n].id == id ==> Ensured(turns, id) == turns
  {
    if n > 0 {
      EnsuredAt(turns[1..], id, n - 1);
      assert [turns[0]] + turns[1..] == turns;
    }
  }

  lemma {:induction false} FirstView(
    turns: seq<TurnView>, id: TurnId, index: nat, status: Status, items: seq<ThreadItem>)
    requires index < |turns| && turns[index].id == id && forall i | 0 <= i < index :: turns[i].id != id
    ensures Lookup(turns, id) == Some(turns[index])
    ensures Put(turns, id, status, items) == turns[index := TurnView(id, status, items)]
  {
    if index > 0 {
      FirstView(turns[1..], id, index - 1, status, items);
      assert turns[index := TurnView(id, status, items)] ==
             [turns[0]] + turns[1..][index - 1 := TurnView(id, status, items)];
    } else {
      assert turns[0 := TurnView(id, status, items)] == [TurnView(id, status, items)] + turns[1..];
    }
  }

  method EnsureTurnView(turns: seq<TurnView>, id: TurnId) returns (ensured: seq<TurnView>, index: nat)
    ensures ensured == Ensured(turns, id)
    ensures index < |ensured| && ensured[index].id == id && forall i | 0 <= i < index :: ensured[i].id != id
  {
    index := 0;
    while index < |turns|
      invariant index <= |turns| && forall i | 0 <= i < index :: turns[i].id != id
    {
      if turns[index].id == id {
        EnsuredAt(turns, id, index);
        return turns, index;
      }
      index := index + 1;
    }
    EnsuredAt(turns, id, index);
    ensured := turns + [TurnView(id, InProgress, [])];
  }

  lemma {:induction false} InvocationAt(items: seq<ThreadItem>, id: string, update: InvocationUpdate, n: nat)
    requires n <= |items| && forall i | 0 <= i < n :: !IsInvocation(items[i], id)
    ensures n == |items| ==>
              WithInvocation(items, id, update) ==
              items + [ToolInvocation(UpdatedInvocation(NewInvocation(id), update))]
    ensures n < |items| && IsInvocation(items[n], id) ==>
              WithInvocation(items, id, update) ==
              items[n := ToolInvocation(UpdatedInvocation(items[n].invocation, update))]
  {
    hide UpdatedInvocation;
    if n > 0 {
      InvocationAt(items[1..], id, update, n - 1);
      assert items == [items[0]] + items[1..];
    }
  }

  method ApplyToolInvocationEvent(items: seq<ThreadItem>, id: string, update: InvocationUpdate)
    returns (updated: seq<ThreadItem>)
    ensures updated == WithInvocation(items, id, update)
  {
    hide UpdatedInvocation;
    var index := 0;
    while index < |items|
      invariant index <= |items| && forall i | 0 <= i < index :: !IsInvocation(items[i], id)
    {
      if IsInvocation(items[index], id) {
        InvocationAt(items, id, update, index);
        return items[index := ToolInvocation(UpdatedInvocation(items[index].invocation, update))];
      }
      index := index + 1;
    }
    InvocationAt(items, id, update, index);
    updated := items + [ToolInvocation(UpdatedInvocation(NewInvocation(id), update))];
  }

  lemma {:induction false} SettledAt(
    items: seq<ThreadItem>, approvalId: Option<string>, requestId: Option<string>, status: string,
    settled: seq<ThreadItem>)
    requires |settled| == |items|
    requires forall i | 0 <= i < |items| :: settled[i] == SettledItem(items[i], approvalId, requestId, status)
    ensures settled == Settled(items, approvalId, requestId, status)
  {
    hide SettledItem;
    if items != [] {
      SettledAt(items[1..], approvalId, requestId, status, settled[1..]);
      assert settled == [settled[0]] + settled[1..];
    }
  }

  method SettleInvocations(
    items: seq<ThreadItem>, approvalId: Option<string>, requestId: Option<string>, status: string)
    returns (settled: seq<ThreadItem>)
    ensures settled == Settled(items, approvalId, requestId, status)
  {
    settled := items;
    for i := 0 to |items|
      invariant |settled| == |items| && forall k | i <= k < |items| :: settled[k] == items[k]
      invariant forall k | 0 <= k < i :: settled[k] == SettledItem(items[k], approvalId, requestId, status)
    {
      var item := settled[i];
      if item.ToolInvocation?
         && ((approvalId.Some? && item.invocation.approvalId == approvalId)
             || (requestId.Some? && item.invocation.requestId == requestId)) {
        settled := settled[i := ToolInvocation(item.invocation.(status := status, reason := None, message := None))];
      }
    }
    SettledAt(items, approvalId, requestId, status, settled);
  }

  /** What an event does to the view of its turn, item list and status in place. */
  method ChangeTurn(view: TurnView, event: Event, synthetic: bool) returns (changed: TurnView)
    ensures (changed.status, changed.items) == Changed(view, event, synthetic) && changed.id == view.id
  {
    changed := view;
    match event.kind {
      case TurnStarted => changed := changed.(status := InProgress);
      case TurnCompleted => changed := changed.(status := Completed);
      case TurnInterrupted => changed := changed.(status := Interrupted);
      case RuntimeError(_) => changed := changed.(status := Failed, items := changed.items + ItemFor(event));
      case ApprovalDecision(approvalId, decision) =>
        var items := SettleInvocations(view.items, Some(approvalId), None, decision);
        changed := changed.(items := items + ItemFor(event));
      case UserInputResolved(requestId) =>
        var items := SettleInvocations(view.items, None, Some(requestId), "completed");
        changed := changed.(items := items + ItemFor(event));
      case ToolInvocationEvent(id, update) =>
        var items := ApplyToolInvocationEvent(view.items, id, update);
        changed := changed.(items := items);
      case GoalReport(_) =>
        if synthetic {
          changed := changed.(status := Completed);
        }
        changed := changed.(items := changed.items + ItemFor(event));
      case _ => changed := changed.(items := changed.items + ItemFor(event));
    }
  }

  method BuildTurnViews(events: seq<Event>) returns (turns: seq<TurnView>)
    ensures turns == ProjectAll(Fold([], None), events).turns
  {
    turns := [];
    var currentTurnId := None;
    for i := 0 to |events|
      invariant ProjectAll(Fold(turns, currentTurnId), events[i..]) == ProjectAll(Fold([], None), events)
    {
      assert events[i..][1..] == events[i + 1..];
      hide Changed, ItemFor, Ensured, Put, Lookup;
      var event := events[i];
      var target := Target(currentTurnId, event);
      if target.Some? {
        var index;
        turns, index := EnsureTurnView(turns, target.value);
        var changed := ChangeTurn(turns[index], event, event.turnId.None? && currentTurnId.None?);
        FirstView(turns, target.value, index, changed.status, changed.items);
        turns := turns[index := changed];
        if event.turnId.Some? && event.kind.TurnStarted? {
          currentTurnId := event.turnId;
        } else if event.turnId.Some? && (event.kind.TurnCompleted? || event.kind.TurnInterrupted?)
                  && currentTurnId == event.turnId {
          currentTurnId := None;
        }
      }
    }
    assert events[|events|..] == [];
  }

  // ---------- Response items ----------

  datatype Role = System | User | Assistant | Tool
  datatype Block = Block(text: string, redacted: bool)
  datatype Message = Message(
    role: Role,
    content: string,
    parts: seq<Part>,
    callsTools: bool,
    reasoning: seq<Block>,
    injected: bool)
  datatype ResponseItem = ResponseItem(turnId: TurnId, message: Message)

  const FORK_CONTEXT := "fork_context"

  predicate HasImage(parts: seq<Part>) {
    exists part <- parts :: part.ImagePart?
  }

  predicate Projectable(m: Message) {
    && !m.injected
    && (|| Trim(m.content) != ""
        || (m.role.User? && HasImage(m.parts))
        || (m.role.Assistant? && (m.reasoning != [] || m.callsTools)))
  }

  function UserInput(m: Message): seq<Part> {
    var parts := if m.parts != [] then m.parts else if m.content == "" then [] else [TextPart(m.content)];
    if HasImage(parts) then parts else []
  }

  function DisplayedReasoning(blocks: seq<Block>): seq<string> {
    if blocks == [] then []
    else
      var text := Trim(blocks[0].text);
      (if !blocks[0].redacted && text != "" then [text] else []) + DisplayedReasoning(blocks[1..])
  }

  // ---------- Merging one turn's messages ----------

  predicate HasUser(items: seq<ThreadItem>, text: string) {
    exists item <- items :: item.UserMessage? && item.text == text
  }

  predicate HasReasoning(items: seq<ThreadItem>, content: seq<string>) {
    exists item <- items :: item.Reasoning? && item.content == content
  }

  predicate HasReply(items: seq<ThreadItem>, text: string) {
    exists item <- items :: item.AssistantMessage? && item.reply == Some(text)
  }

  predicate IsTool(item: ThreadItem) {
    item.ToolInvocation? || item.ToolResult? || item.ExecOutput?
  }

  /** Where tool-calling messages go: before the first tool item, or at the end. */
  function FirstTool(items: seq<ThreadItem>): (i: nat)
    ensures i <= |items|
  {
    if items == [] || IsTool(items[0]) then 0 else 1 + FirstTool(items[1..])
  }

  function InsertAt(items: seq<ThreadItem>, i: nat, item: ThreadItem): seq<ThreadItem>
    requires i <= |items|
  {
    items[..i] + [item] + items[i..]
  }

  function WithUser(items: seq<ThreadItem>, user: Option<Message>): seq<ThreadItem> {
    if user.None? || HasUser(items, user.value.content) then items
    else [UserMessage(user.value.content, UserInput(user.value))] + items
  }

  function Slot(items: seq<ThreadItem>, m: Message): (i: nat)
    ensures i <= |items|
  {
    if m.callsTools then FirstTool(items) else |items|
  }

  function WithReasoning(items: seq<ThreadItem>, m: Message): seq<ThreadItem> {
    var content := DisplayedReasoning(m.reasoning);
    if content == [] || HasReasoning(items, content) then items
    else InsertAt(items, Slot(items, m), Reasoning(None, [], content))
  }

  function WithReply(items: seq<ThreadItem>, m: Message): seq<ThreadItem> {
    if HasReply(items, m.content) then items
    else InsertAt(items, Slot(items, m), AssistantMessage(None, Some(m.content)))
  }

  function WithAssistants(items: seq<ThreadItem>, assistants: seq<Message>): seq<ThreadItem>
    decreases |assistants|
  {
    if assistants == [] then items
    else WithAssistants(WithReply(WithReasoning(items, assistants[0]), assistants[0]), assistants[1..])
  }

  /** The last projectable user message and the projectable assistant messages of a turn. */
  function UserOf(messages: seq<Message>): Option<Message> {
    if messages == [] then None
    else
      var last := messages[|messages| - 1];
      if Projectable(last) && last.role.User? then Some(last) else UserOf(messages[..|messages| - 1])
  }

  function AssistantsOf(messages: seq<Message>): seq<Message> {
    if messages == [] then []
    else (if Projectable(messages[0]) && messages[0].role.Assistant? then [messages[0]] else [])
         + AssistantsOf(messages[1..])
  }

  function Merged(items: seq<ThreadItem>, messages: seq<Message>): seq<ThreadItem> {
    WithAssistants(WithUser(items, UserOf(messages)), AssistantsOf(messages))
  }

  method InsertProjectedTurnMessages(items: seq<ThreadItem>, user: Option<Message>, assistants: seq<Message>)
    returns (merged: seq<ThreadItem>)
    ensures merged == WithAssistants(WithUser(items, user), assistants)
  {
    merged := items;
    if user.Some? && !HasUser(merged, user.value.content) {
      merged := [UserMessage(user.value.content, UserInput(user.value))] + merged;
    }
    for i := 0 to |assistants|
      invariant WithAssistants(merged, assistants[i..]) == WithAssistants(WithUser(items, user), assistants)
    {
      hide HasReasoning, HasReply, FirstTool, DisplayedReasoning;
      assert assistants[i..][1..] == assistants[i + 1..];
      var assistant := assistants[i];
      var content := DisplayedReasoning(assistant.reasoning);
      if content != [] && !HasReasoning(merged, content) {
        merged := InsertAt(merged, Slot(merged, assistant), Reasoning(None, [], content));
      }
      if HasReply(merged, assistant.content) {
        continue;
      }
      merged := InsertAt(merged, Slot(merged, assistant), AssistantMessage(None, Some(assistant.content)));
    }
    assert assistants[|assistants|..] == [];
  }

  // ---------- Merging only inserts ----------

  predicate Subsequence(a: seq<ThreadItem>, b: seq<ThreadItem>)
    decreases |b|
  {
    a == [] || (b != [] && ((a[0] == b[0] && Subsequence(a[1..], b[1..])) || Subsequence(a, b[1..])))
  }

  lemma {:induction false} SubsequenceOfItself(a: seq<ThreadItem>)
    ensures Subsequence(a, a)
  {
    if a != [] {
      SubsequenceOfItself(a[1..]);
    }
  }

  lemma {:induction false} SubsequenceTransitive(a: seq<ThreadItem>, b: seq<ThreadItem>, c: seq<ThreadItem>)
    requires Subsequence(a, b) && Subsequence(b, c)
    ensures Subsequence(a, c)
    decreases |c|, |b|
  {
    if a != [] {
      if b[0] == c[0] && Subsequence(b[1..], c[1..]) {
        if a[0] == b[0] && Subsequence(a[1..], b[1..]) {
          SubsequenceTransitive(a[1..], b[1..], c[1..]);
        } else {
          SubsequenceTransitive(a, b[1..], c[1..]);
        }
      } else {
        SubsequenceTransitive(a, b, c[1..]);
      }
    }
  }

  lemma {:induction false} InsertedIsSuper(items: seq<ThreadItem>, i: nat, item: ThreadItem)
    requires i <= |items|
    ensures Subsequence(items, InsertAt(items, i, item))
    decreases i
  {
    var more := InsertAt(items, i, item);
    if i == 0 {
      assert more[1..] == items;
      SubsequenceOfItself(items);
    } else {
      InsertedIsSuper(items[1..], i - 1, item);
      assert more[1..] == InsertAt(items[1..], i - 1, item);
    }
  }

  lemma {:induction false} AssistantsOnlyInsert(items: seq<ThreadItem>, assistants: seq<Message>)
    ensures Subsequence(items, WithAssistants(items, assistants))
    decreases |assistants|
  {
    SubsequenceOfItself(items);
    if assistants != [] {
      hide HasReasoning, HasReply, FirstTool, DisplayedReasoning, Subsequence, InsertAt;
      var m := assistants[0];
      var first := WithReasoning(items, m);
      var second := WithReply(first, m);
      if first != items {
        InsertedIsSuper(items, Slot(items, m), Reasoning(None, [], DisplayedReasoning(m.reasoning)));
      }
      if second != first {
        InsertedIsSuper(first, Slot(first, m), AssistantMessage(None, Some(m.content)));
      }
      if second != first {
        SubsequenceTransitive(items, first, second);
      }
      AssistantsOnlyInsert(second, assistants[1..]);
      SubsequenceTransitive(items, second, WithAssistants(second, assistants[1..]));
    }
  }

  /** The items there before a merge stay, in their order. */
  lemma MergeOnlyInserts(items: seq<ThreadItem>, messages: seq<Message>)
    ensures Subsequence(items, Merged(items, messages))
  {
    var user := UserOf(messages);
    var first := WithUser(items, user);
    SubsequenceOfItself(items);
    if first != items {
      InsertedIsSuper(items, 0, UserMessage(user.value.content, UserInput(user.value)));
      assert first == InsertAt(items, 0, UserMessage(user.value.content, UserInput(user.value)));
    }
    hide Subsequence, WithUser, WithAssistants;
    AssistantsOnlyInsert(first, AssistantsOf(messages));
    SubsequenceTransitive(items, first, Merged(items, messages));
  }

  // ---------- Merging is idempotent ----------

  /** Nothing is left to insert for `assistants`. */
  ghost predicate Present(items: seq<ThreadItem>, assistants: seq<Message>) {
    forall m <- assistants ::
      && (DisplayedReasoning(m.reasoning) == [] || HasReasoning(items, DisplayedReasoning(m.reasoning)))
      && HasReply(items, m.content)
  }

  lemma {:induction false} PresentMeansNothingToDo(items: seq<ThreadItem>, assistants: seq<Message>)
    requires Present(items, assistants)
    ensures WithAssistants(items, assistants) == items
    decreases |assistants|
  {
    hide HasReasoning, HasReply, DisplayedReasoning, InsertAt;
    if assistants != [] {
      PresentMeansNothingToDo(items, assistants[1..]);
    }
  }

  lemma {:induction false} SubsequenceMembers(a: seq<ThreadItem>, b: seq<ThreadItem>)
    requires Subsequence(a, b)
    ensures forall item <- a :: item in b
    decreases |b|
  {
    if a != [] {
      if a[0] == b[0] && Subsequence(a[1..], b[1..]) {
        SubsequenceMembers(a[1..], b[1..]);
        assert forall item <- a :: item == a[0] || item in a[1..];
      } else {
        SubsequenceMembers(a, b[1..]);
      }
    }
  }

  lemma {:induction false} AllPresentAfter(items: seq<ThreadItem>, assistants: seq<Message>)
    ensures Present(WithAssistants(items, assistants), assistants)
    decreases |assistants|
  {
    if assistants != [] {
      hide FirstTool, DisplayedReasoning, Subsequence;
      var m := assistants[0];
      var first := WithReasoning(items, m);
      var second := WithReply(first, m);
      var result := WithAssistants(second, assistants[1..]);
      var content := DisplayedReasoning(m.reasoning);
      assert content == [] || HasReasoning(first, content) by {
        if content != [] && !HasReasoning(items, content) {
          assert first[Slot(items, m)] == Reasoning(None, [], content);
        }
      }
      assert HasReply(second, m.content) by {
        if !HasReply(first, m.content) {
          assert second[Slot(first, m)] == AssistantMessage(None, Some(m.content));
        }
      }
      assert forall item <- first :: item in second;
      AssistantsOnlyInsert(second, assistants[1..]);
      SubsequenceMembers(second, result);
      AllPresentAfter(second, assistants[1..]);
    }
  }

  /** Merging the same messages again changes nothing. */
  lemma MergeIsIdempotent(items: seq<ThreadItem>, messages: seq<Message>)
    ensures Merged(Merged(items, messages), messages) == Merged(items, messages)
  {
    var user, assistants := UserOf(messages), AssistantsOf(messages);
    var first := WithUser(items, user);
    var merged := WithAssistants(first, assistants);
    assert user.Some? ==> HasUser(first, user.value.content) by {
      if user.Some? && first != items {
        assert first[0].UserMessage? && first[0].text == user.value.content;
      }
    }
    AssistantsOnlyInsert(first, assistants);
    SubsequenceMembers(first, merged);
    AllPresentAfter(first, assistants);
    hide WithAssistants, Present, Subsequence;
    assert user.Some? ==> HasUser(merged, user.value.content);
    PresentMeansNothingToDo(merged, assistants);
  }

  // ---------- Where merged messages go ----------

  /** The items a message adds next to the present ones: its reasoning, then its text. */
  function Additions(present: seq<ThreadItem>, m: Message): seq<ThreadItem> {
    var content := DisplayedReasoning(m.reasoning);
    (if content == [] || HasReasoning(present, content) then [] else [Reasoning(None, [], content)])
    + (if HasReply(present, m.content) then [] else [AssistantMessage(None, Some(m.content))])
  }

  /** The additions of tool-calling messages and of the others, each in message order. */
  datatype Placement = Placement(beforeTools: seq<ThreadItem>, atEnd: seq<ThreadItem>)

  /** A placement with more items where the message's own go. */
  function Grown(p: Placement, m: Message, more: seq<ThreadItem>): Placement {
    if m.callsTools then p.(beforeTools := p.beforeTools + more) else p.(atEnd := p.atEnd + more)
  }

  function Placed(items: seq<ThreadItem>, p: Placement, assistants: seq<Message>): Placement
    decreases |assistants|
  {
    if assistants == [] then p
    else
      var added := Additions(items + p.beforeTools + p.atEnd, assistants[0]);
      Placed(items, Grown(p, assistants[0], added), assistants[1..])
  }

  function Laid(items: seq<ThreadItem>, p: Placement): seq<ThreadItem> {
    items[..FirstTool(items)] + p.beforeTools + items[FirstTool(items)..] + p.atEnd
  }

  predicate NoTools(items: seq<ThreadItem>) {
    forall item <- items :: !IsTool(item)
  }

  lemma {:induction false} FirstToolAfter(plain: seq<ThreadItem>, rest: seq<ThreadItem>)
    requires NoTools(plain) && rest != [] && IsTool(rest[0])
    ensures FirstTool(plain + rest) == |plain|
  {
    if plain == [] {
      assert plain + rest == rest;
    } else {
      assert (plain + rest)[1..] == plain[1..] + rest;
      FirstToolAfter(plain[1..], rest);
    }
  }

  lemma {:induction false} FirstToolFacts(items: seq<ThreadItem>)
    ensures NoTools(items[..FirstTool(items)])
    ensures FirstTool(items) < |items| ==> IsTool(items[FirstTool(items)])
  {
    if items != [] && !IsTool(items[0]) {
      FirstToolFacts(items[1..]);
      assert items[..FirstTool(items)] == [items[0]] + items[1..][..FirstTool(items[1..])];
    }
  }

  /** Laying out keeps the first tool item first: everything laid before it is no tool item. */
  lemma SlotInLaid(items: seq<ThreadItem>, p: Placement, m: Message)
    requires FirstTool(items) < |items| && NoTools(p.beforeTools)
    ensures Slot(Laid(items, p), m) ==
            if m.callsTools then FirstTool(items) + |p.beforeTools| else |Laid(items, p)|
  {
    FirstToolFacts(items);
    var plain, rest := items[..FirstTool(items)] + p.beforeTools, items[FirstTool(items)..] + p.atEnd;
    FirstToolAfter(plain, rest);
    assert Laid(items, p) == plain + rest;
  }

  lemma Splice(a: seq<ThreadItem>, b: seq<ThreadItem>, c: seq<ThreadItem>, d: seq<ThreadItem>, item: ThreadItem)
    ensures InsertAt(a + b + c + d, |a| + |b|, item) == a + (b + [item]) + c + d
    ensures InsertAt(a + b + c + d, |a + b + c + d|, item) == a + b + c + (d + [item])
  {
    var laid := a + b + c + d;
    assert laid[..|a| + |b|] == a + b && laid[|a| + |b|..] == c + d;
    assert laid[..|laid|] == laid && laid[|laid|..] == [];
  }

  lemma InsertInLaid(items: seq<ThreadItem>, p: Placement, m: Message, item: ThreadItem)
    requires FirstTool(items) < |items| && NoTools(p.beforeTools)
    ensures InsertAt(Laid(items, p), Slot(Laid(items, p), m), item) ==
            Laid(items, Grown(p, m, [item]))
  {
    hide FirstTool, IsTool, InsertAt, Slot;
    var k := FirstTool(items);
    SlotInLaid(items, p, m);
    Splice(items[..k], p.beforeTools, items[k..], p.atEnd, item);
  }

  lemma LaidHasSameItems(items: seq<ThreadItem>, p: Placement)
    ensures forall item :: item in Laid(items, p) <==> item in items + p.beforeTools + p.atEnd
  {
    var k := FirstTool(items);
    assert items == items[..k] + items[k..];
  }

  lemma ReasoningLaid(items: seq<ThreadItem>, p: Placement, m: Message)
    requires FirstTool(items) < |items| && NoTools(p.beforeTools)
    ensures var present, content := items + p.beforeTools + p.atEnd, DisplayedReasoning(m.reasoning);
            WithReasoning(Laid(items, p), m) ==
            Laid(items, Grown(p, m, if content == [] || HasReasoning(present, content) then []
                                    else [Reasoning(None, [], content)]))
  {
    LaidHasSameItems(items, p);
    hide FirstTool, DisplayedReasoning, InsertAt, Laid, Slot;
    assert p.beforeTools + [] == p.beforeTools && p.atEnd + [] == p.atEnd;
    InsertInLaid(items, p, m, Reasoning(None, [], DisplayedReasoning(m.reasoning)));
  }

  lemma ReplyLaid(items: seq<ThreadItem>, p: Placement, m: Message)
    requires FirstTool(items) < |items| && NoTools(p.beforeTools)
    ensures var present := items + p.beforeTools + p.atEnd;
            WithReply(Laid(items, p), m) ==
            Laid(items, Grown(p, m, if HasReply(present, m.content) then []
                                    else [AssistantMessage(None, Some(m.content))]))
  {
    LaidHasSameItems(items, p);
    hide FirstTool, InsertAt, Laid, Slot;
    assert p.beforeTools + [] == p.beforeTools && p.atEnd + [] == p.atEnd;
    InsertInLaid(items, p, m, AssistantMessage(None, Some(m.content)));
  }

  lemma ReasoningIsNoReply(items: seq<ThreadItem>, p: Placement, m: Message, thought: seq<ThreadItem>, content: string)
    requires forall item <- thought :: item.Reasoning?
    ensures var q := Grown(p, m, thought);
            && (HasReply(items + q.beforeTools + q.atEnd, content) <==>
                HasReply(items + p.beforeTools + p.atEnd, content))
            && (NoTools(p.beforeTools) ==> NoTools(q.beforeTools))
  {
  }

  lemma OneLaid(items: seq<ThreadItem>, p: Placement, m: Message)
    requires FirstTool(items) < |items| && NoTools(p.beforeTools)
    ensures var added := Additions(items + p.beforeTools + p.atEnd, m);
            && NoTools(added)
            && WithReply(WithReasoning(Laid(items, p), m), m) == Laid(items, Grown(p, m, added))
  {
    hide FirstTool, DisplayedReasoning, Laid, WithReasoning, WithReply, HasReply, HasReasoning;
    var present := items + p.beforeTools + p.atEnd;
    var content := DisplayedReasoning(m.reasoning);
    var thought: seq<ThreadItem> :=
      if content == [] || HasReasoning(present, content) then [] else [Reasoning(None, [], content)];
    var said: seq<ThreadItem> := if HasReply(present, m.content) then [] else [AssistantMessage(None, Some(m.content))];
    assert Additions(present, m) == thought + said && NoTools(thought + said);
    ReasoningIsNoReply(items, p, m, thought, m.content);
    ReasoningLaid(items, p, m);
    ReplyLaid(items, Grown(p, m, thought), m);
    GrownTwice(p, m, thought, said);
  }

  lemma GrownTwice(p: Placement, m: Message, first: seq<ThreadItem>, second: seq<ThreadItem>)
    ensures Grown(Grown(p, m, first), m, second) == Grown(p, m, first + second)
  {
    Regroup(p.beforeTools, first, second);
    Regroup(p.atEnd, first, second);
  }

  lemma {:induction false} AllLaid(items: seq<ThreadItem>, p: Placement, assistants: seq<Message>)
    requires FirstTool(items) < |items| && NoTools(p.beforeTools)
    ensures WithAssistants(Laid(items, p), assistants) == Laid(items, Placed(items, p, assistants))
    ensures NoTools(Placed(items, p, assistants).beforeTools)
    decreases |assistants|
  {
    hide WithReply, WithReasoning, Laid, Additions, FirstTool;
    if assistants != [] {
      var added := Additions(items + p.beforeTools + p.atEnd, assistants[0]);
      OneLaid(items, p, assistants[0]);
      AllLaid(items, Grown(p, assistants[0], added), assistants[1..]);
    }
  }

  /** What messages add to a turn without a tool item, in message order. */
  function AddedInOrder(items: seq<ThreadItem>, assistants: seq<Message>): seq<ThreadItem>
    decreases |assistants|
  {
    if assistants == [] then []
    else
      var added := Additions(items, assistants[0]);
      added + AddedInOrder(items + added, assistants[1..])
  }

  lemma {:induction false} NoToolFirst(items: seq<ThreadItem>)
    requires NoTools(items)
    ensures FirstTool(items) == |items|
  {
    if items != [] {
      NoToolFirst(items[1..]);
    }
  }

  lemma InsertAtEnd(items: seq<ThreadItem>, item: ThreadItem)
    ensures InsertAt(items, |items|, item) == items + [item]
  {
    assert items[..|items|] == items;
  }

  lemma OneAppended(items: seq<ThreadItem>, m: Message)
    requires NoTools(items)
    ensures WithReply(WithReasoning(items, m), m) == items + Additions(items, m) && NoTools(items + Additions(items, m))
  {
    hide DisplayedReasoning, InsertAt;
    var thought := Reasoning(None, [], DisplayedReasoning(m.reasoning));
    var reply := AssistantMessage(None, Some(m.content));
    var first := WithReasoning(items, m);
    NoToolFirst(items);
    InsertAtEnd(items, thought);
    assert first == items || first == items + [thought];
    assert HasReply(first, m.content) == HasReply(items, m.content);
    hide HasReply, HasReasoning, FirstTool;
    NoToolFirst(first);
    InsertAtEnd(first, reply);
    assert items + [] == items;
  }

  lemma {:induction false} AllAppended(items: seq<ThreadItem>, assistants: seq<Message>)
    requires NoTools(items)
    ensures WithAssistants(items, assistants) == items + AddedInOrder(items, assistants)
    decreases |assistants|
  {
    if assistants == [] {
      assert items + [] == items;
    } else {
      var added := Additions(items, assistants[0]);
      OneAppended(items, assistants[0]);
      hide WithReply, WithReasoning, Additions, NoTools;
      AllAppended(items + added, assistants[1..]);
      Regroup(items, added, AddedInOrder(items + added, assistants[1..]));
    }
  }

  /** In a turn that has a tool item, the texts and reasoning of tool-calling messages end up directly before the first
    * tool item in message order, those of the other messages at the end in message order, and the items that were there
    * before keep their places around them. In a turn without one, everything goes to the end in message order. */
  lemma ToolCallersGoBeforeTools(items: seq<ThreadItem>, assistants: seq<Message>)
    ensures var p, k := Placed(items, Placement([], []), assistants), FirstTool(items);
            if k < |items| then
              && WithAssistants(items, assistants) == items[..k] + p.beforeTools + items[k..] + p.atEnd
              && NoTools(items[..k] + p.beforeTools) && IsTool(items[k])
            else WithAssistants(items, assistants) == items + AddedInOrder(items, assistants) && NoTools(items)
  {
    hide Placed, WithAssistants, IsTool, AddedInOrder, FirstTool;
    var k := FirstTool(items);
    FirstToolFacts(items);
    if k < |items| {
      AllLaid(items, Placement([], []), assistants);
      assert items[..k] + [] + items[k..] + [] == items;
    } else {
      assert items[..k] == items;
      AllAppended(items, assistants);
    }
  }

  /** A user message at the front stays at the front: assistant messages are never inserted before it. */
  lemma {:induction false} UserStaysFirst(items: seq<ThreadItem>, assistants: seq<Message>)
    requires items != [] && items[0].UserMessage?
    ensures WithAssistants(items, assistants) != [] && WithAssistants(items, assistants)[0] == items[0]
    decreases |assistants|
  {
    if assistants != [] {
      var m := assistants[0];
      var first := WithReasoning(items, m);
      var second := WithReply(first, m);
      assert FirstTool(items) > 0 && FirstTool(first) > 0 && first[0] == items[0];
      assert second[0] == items[0];
      UserStaysFirst(second, assistants[1..]);
    }
  }

  lemma UserGoesFirst(items: seq<ThreadItem>, messages: seq<Message>)
    requires forall item <- items :: !item.UserMessage?
    ensures var user := UserOf(messages);
            user.Some? ==>
              && Merged(items, messages) != []
              && Merged(items, messages)[0] == UserMessage(user.value.content, UserInput(user.value))
  {
    var user := UserOf(messages);
    if user.Some? {
      UserStaysFirst(WithUser(items, user), AssistantsOf(messages));
    }
  }

  // ---------- Merging a whole thread ----------

  function WithoutFork(items: seq<ResponseItem>): seq<ResponseItem> {
    if items == [] then []
    else (if items[0].turnId != FORK_CONTEXT then [items[0]] else []) + WithoutFork(items[1..])
  }

  /** The messages of one turn, in order. */
  function MessagesOf(items: seq<ResponseItem>, id: TurnId): seq<Message> {
    if items == [] then []
    else (if items[0].turnId == id then [items[0].message] else []) + MessagesOf(items[1..], id)
  }

  /** Creates views, already completed, for turns that no event has created. */
  function WithTurns(turns: seq<TurnView>, items: seq<ResponseItem>): seq<TurnView>
    decreases |items|
  {
    if items == [] then turns
    else
      var id := items[0].turnId;
      WithTurns(if Lookup(turns, id).Some? then turns else turns + [TurnView(id, Completed, [])], items[1..])
  }

  function MergedTurn(view: TurnView, items: seq<ResponseItem>): TurnView {
    view.(items := Merged(view.items, MessagesOf(items, view.id)))
  }

  function MergedTurns(turns: seq<TurnView>, items: seq<ResponseItem>): seq<TurnView> {
    if turns == [] then [] else [MergedTurn(turns[0], items)] + MergedTurns(turns[1..], items)
  }

  function Inserted(turns: seq<TurnView>, items: seq<ResponseItem>): seq<TurnView> {
    var own := WithoutFork(items);
    MergedTurns(WithTurns(turns, own), own)
  }

  method InsertResponseItems(turns: seq<TurnView>, items: seq<ResponseItem>) returns (merged: seq<TurnView>)
    ensures merged == Inserted(turns, items)
  {
    hide Lookup, MergedTurn, Merged;
    var own := WithoutFork(items);
    merged := turns;
    for i := 0 to |own|
      invariant WithTurns(merged, own[i..]) == WithTurns(turns, own)
    {
      assert own[i..][1..] == own[i + 1..];
      if Lookup(merged, own[i].turnId).None? {
        merged := merged + [TurnView(own[i].turnId, Completed, [])];
      }
    }
    assert own[|own|..] == [];
    var views := merged;
    merged := [];
    for i := 0 to |views|
      invariant merged + MergedTurns(views[i..], own) == MergedTurns(views, own)
    {
      assert views[i..][1..] == views[i + 1..];
      merged := merged + [MergedTurn(views[i], own)];
    }
    assert views[|views|..] == [];
  }

  lemma {:induction false} LookupAppend(turns: seq<TurnView>, view: TurnView, id: TurnId)
    ensures Lookup(turns + [view], id) ==
            if Lookup(turns, id).Some? then Lookup(turns, id) else if view.id == id then Some(view) else None
  {
    if turns == [] {
      assert (turns + [view])[1..] == [];
    } else {
      assert (turns + [view])[1..] == turns[1..] + [view];
      LookupAppend(turns[1..], view, id);
    }
  }

  lemma {:induction false} WithTurnsLookup(turns: seq<TurnView>, items: seq<ResponseItem>, id: TurnId)
    ensures Lookup(WithTurns(turns, items), id) ==
            if Lookup(turns, id).Some? then Lookup(turns, id)
            else if MessagesOf(items, id) != [] then Some(TurnView(id, Completed, [])) else None
    decreases |items|
  {
    hide Lookup;
    if items != [] {
      var first := items[0].turnId;
      LookupAppend(turns, TurnView(first, Completed, []), id);
      WithTurnsLookup(if Lookup(turns, first).Some? then turns else turns + [TurnView(first, Completed, [])],
                      items[1..], id);
    }
  }

  lemma {:induction false} MergedTurnsLookup(turns: seq<TurnView>, items: seq<ResponseItem>, id: TurnId)
    ensures Lookup(MergedTurns(turns, items), id) ==
            if Lookup(turns, id).Some? then Some(MergedTurn(Lookup(turns, id).value, items)) else None
  {
    hide Merged;
    if turns != [] {
      MergedTurnsLookup(turns[1..], items, id);
      assert MergedTurns(turns, items)[1..] == MergedTurns(turns[1..], items);
    }
  }

  lemma {:induction false} WithoutForkMessages(items: seq<ResponseItem>, id: TurnId)
    ensures MessagesOf(WithoutFork(items), id) == if id == FORK_CONTEXT then [] else MessagesOf(items, id)
    ensures WithoutFork(WithoutFork(items)) == WithoutFork(items)
  {
    if items != [] {
      WithoutForkMessages(items[1..], id);
      if items[0].turnId != FORK_CONTEXT {
        assert WithoutFork(items)[1..] == WithoutFork(items[1..]);
      } else {
        assert WithoutFork(items) == WithoutFork(items[1..]);
      }
    }
  }

  lemma LookupIsTurn(turns: seq<TurnView>, id: TurnId)
    ensures Lookup(turns, id).Some? ==> Lookup(turns, id).value.id == id
  {
  }

  /** What a turn looks like after merging depends only on its view before and its own messages in order; the fork
    * context contributes nothing. */
  lemma InsertedLookup(turns: seq<TurnView>, items: seq<ResponseItem>, id: TurnId)
    ensures var messages := if id == FORK_CONTEXT then [] else MessagesOf(items, id);
            Lookup(Inserted(turns, items), id) ==
            match Lookup(turns, id)
            case Some(view) => Some(TurnView(id, view.status, Merged(view.items, messages)))
            case None => if messages == [] then None else Some(TurnView(id, Completed, Merged([], messages)))
  {
    var own := WithoutFork(items);
    WithoutForkMessages(items, id);
    WithTurnsLookup(turns, own, id);
    MergedTurnsLookup(WithTurns(turns, own), own, id);
    LookupIsTurn(turns, id);
    hide Lookup, WithTurns, MergedTurns, WithoutFork, MessagesOf, Merged;
  }

  /** Reordering response items without changing any turn's own order changes no turn. */
  lemma InterleavingDoesNotMatter(turns: seq<TurnView>, a: seq<ResponseItem>, b: seq<ResponseItem>, id: TurnId)
    requires forall turn: TurnId | turn != FORK_CONTEXT :: MessagesOf(a, turn) == MessagesOf(b, turn)
    ensures Lookup(Inserted(turns, a), id) == Lookup(Inserted(turns, b), id)
  {
    InsertedLookup(turns, a, id);
    InsertedLookup(turns, b, id);
  }

  lemma {:induction false} WithTurnsSettled(turns: seq<TurnView>, items: seq<ResponseItem>)
    requires forall i | 0 <= i < |items| :: Lookup(turns, items[i].turnId).Some?
    ensures WithTurns(turns, items) == turns
    decreases |items|
  {
    if items != [] {
      WithTurnsSettled(turns, items[1..]);
    }
  }

  lemma {:induction false} HasMessages(items: seq<ResponseItem>, i: nat)
    requires i < |items|
    ensures MessagesOf(items, items[i].turnId) != []
  {
    if i > 0 {
      HasMessages(items[1..], i - 1);
    }
  }

  lemma {:induction false} MergedTurnsTwice(turns: seq<TurnView>, items: seq<ResponseItem>)
    ensures MergedTurns(MergedTurns(turns, items), items) == MergedTurns(turns, items)
  {
    if turns != [] {
      MergeIsIdempotent(turns[0].items, MessagesOf(items, turns[0].id));
      MergedTurnsTwice(turns[1..], items);
      hide Merged;
      assert MergedTurns(turns, items)[1..] == MergedTurns(turns[1..], items);
    }
  }

  /** Inserting the same response items again changes nothing in the thread. */
  lemma InsertIsIdempotent(turns: seq<TurnView>, items: seq<ResponseItem>)
    ensures Inserted(Inserted(turns, items), items) == Inserted(turns, items)
  {
    var own, merged := WithoutFork(items), Inserted(turns, items);
    forall i | 0 <= i < |own| ensures Lookup(merged, own[i].turnId).Some? {
      HasMessages(own, i);
      WithTurnsLookup(turns, own, own[i].turnId);
      MergedTurnsLookup(WithTurns(turns, own), own, own[i].turnId);
    }
    WithTurnsSettled(merged, own);
    MergedTurnsTwice(WithTurns(turns, own), own);
  }

  /** From any events and response items: a turn with a projectable user message starts with the last such message,
    * and its event-derived items follow in their order. */
  lemma TranscriptOfTurn(events: seq<Event>, items: seq<ResponseItem>, id: TurnId)
    requires id != FORK_CONTEXT && Lookup(ProjectAll(Fold([], None), events).turns, id).Some?
    ensures var before := Lookup(ProjectAll(Fold([], None), events).turns, id).value.items;
            var after := Lookup(Inserted(ProjectAll(Fold([], None), events).turns, items), id);
            var user := UserOf(MessagesOf(items, id));
            && after.Some? && Subsequence(before, after.value.items)
            && (user.Some? ==>
                  && after.value.items != []
                  && after.value.items[0] == UserMessage(user.value.content, UserInput(user.value)))
  {
    var turns := ProjectAll(Fold([], None), events).turns;
    ProjectAllFrom(Fold([], None), events);
    LookupIsMember(turns, id);
    InsertedLookup(turns, items, id);
    var before := Lookup(turns, id).value.items;
    hide ProjectAll, Inserted, Merged, Subsequence, Ids, Distinct, Lookup, UserOf;
    MergeOnlyInserts(before, MessagesOf(items, id));
    UserGoesFirst(before, MessagesOf(items, id));
  }
}
