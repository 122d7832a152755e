/** What the transcript of a turn says, in terms of the events alone: which events belong to a turn, what its items
  * tell, how it stands, and how its tool invocations stand. */
module ThreadTranscript {
  import opened Text
  import opened ThreadProjection
  import opened Wrappers

  const NOTHING := Fold([], None)

  // ---------- Which events belong to a turn ----------

  predicate StartsSome(event: Event) {
    event.kind.TurnStarted? && event.turnId.Some?
  }

  predicate Ends(event: Event, id: TurnId) {
    (event.kind.TurnCompleted? || event.kind.TurnInterrupted?) && event.turnId == Some(id)
  }

  /** The turn has been started, and since then no turn was started and it has not ended. */
  ghost predicate Open(events: seq<Event>, id: TurnId) {
    exists k | 0 <= k < |events| ::
      && StartsSome(events[k]) && events[k].turnId == Some(id)
      && forall j | k < j < |events| :: !StartsSome(events[j]) && !Ends(events[j], id)
  }

  ghost predicate SomeOpen(events: seq<Event>) {
    exists id :: Open(events, id)
  }

  /** Turn boundaries belong to the turn they name, everything else to the open turn if there is one; a goal report
    * always finds a turn. */
  ghost predicate GoesTo(before: seq<Event>, event: Event, id: TurnId) {
    if event.kind.TurnStarted? || event.kind.TurnCompleted? || event.kind.TurnInterrupted? then event.turnId == Some(id)
    else if event.kind.Unprojected? then false
    else if SomeOpen(before) then Open(before, id)
    else if event.kind.GoalReport? then id == event.turnId.GetOr("system_goal_reports")
    else event.turnId == Some(id)
  }

  lemma {:induction false} ProjectLast(f: Fold, events: seq<Event>, last: Event)
    ensures ProjectAll(f, events + [last]) == Projected(ProjectAll(f, events), last)
    decreases |events|
  {
    hide Projected;
    if events == [] {
      assert [] + [last] == [last] && [last][1..] == [];
    } else {
      assert (events + [last])[1..] == events[1..] + [last] && (events + [last])[0] == events[0];
      ProjectLast(Projected(f, events[0]), events[1..], last);
    }
  }

  lemma OpenLast(events: seq<Event>, last: Event, id: TurnId)
    ensures Open(events + [last], id) <==>
            if StartsSome(last) then last.turnId == Some(id) else Open(events, id) && !Ends(last, id)
  {
    var all := events + [last];
    assert forall j | 0 <= j < |events| :: all[j] == events[j];
    assert all[|events|] == last;
    if StartsSome(last) && last.turnId == Some(id) {
      assert StartsSome(all[|events|]);
    } else if !StartsSome(last) && Open(events, id) && !Ends(last, id) {
      var k :| 0 <= k < |events| && StartsSome(events[k]) && events[k].turnId == Some(id)
               && forall j | k < j < |events| :: !StartsSome(events[j]) && !Ends(events[j], id);
      assert StartsSome(all[k]);
    }
  }

  /** The turn held as current is the open one. */
  lemma {:induction false} CurrentIsOpen(events: seq<Event>, id: TurnId)
    ensures ProjectAll(NOTHING, events).current == Some(id) <==> Open(events, id)
  {
    if events != [] {
      var front, last := events[..|events| - 1], events[|events| - 1];
      assert events == front + [last];
      CurrentIsOpen(front, id);
      ProjectLast(NOTHING, front, last);
      OpenLast(front, last, id);
      CurrentAfter(ProjectAll(NOTHING, front), last);
      hide Projected, Open;
    }
  }

  lemma CurrentAfter(f: Fold, event: Event)
    ensures Projected(f, event).current ==
            if StartsSome(event) then event.turnId
            else if f.current.Some? && Ends(event, f.current.value) then None
            else f.current
  {
    hide Changed, Ensured, Put, Lookup;
  }

  lemma TargetIs(events: seq<Event>, event: Event, id: TurnId)
    ensures Target(ProjectAll(NOTHING, events).current, event) == Some(id) <==> GoesTo(events, event, id)
    ensures ProjectAll(NOTHING, events).current.None? <==> !SomeOpen(events)
  {
    var current := ProjectAll(NOTHING, events).current;
    CurrentIsOpen(events, id);
    if current.Some? {
      CurrentIsOpen(events, current.value);
    }
    if other :| Open(events, other) {
      CurrentIsOpen(events, other);
    }
    hide Open;
  }

  // ---------- The view of a turn ----------

  ghost predicate Synthetic(before: seq<Event>, event: Event) {
    event.turnId.None? && !SomeOpen(before)
  }

  function ViewAfter(view: TurnView, event: Event, synthetic: bool): TurnView {
    var (status, items) := Changed(view, event, synthetic);
    TurnView(view.id, status, items)
  }

  ghost function ViewOf(events: seq<Event>, id: TurnId): Option<TurnView> {
    if events == [] then None
    else
      var front, last := events[..|events| - 1], events[|events| - 1];
      var view := ViewOf(front, id);
      if GoesTo(front, last, id)
      then Some(ViewAfter(view.GetOr(TurnView(id, InProgress, [])), last, Synthetic(front, last)))
      else view
  }

  lemma LookupAfter(f: Fold, event: Event, id: TurnId)
    ensures Lookup(f.turns, id).Some? ==> Lookup(f.turns, id).value.id == id
    ensures Lookup(Projected(f, event).turns, id) ==
            if Target(f.current, event) == Some(id)
            then Some(ViewAfter(Lookup(f.turns, id).GetOr(TurnView(id, InProgress, [])), event,
                                event.turnId.None? && f.current.None?))
            else Lookup(f.turns, id)
  {
    LookupIsMember(f.turns, id);
    var target := Target(f.current, event);
    if target.Some? {
      var turns := Ensured(f.turns, target.value);
      EnsuredFacts(f.turns, target.value, id);
      EnsuredFacts(f.turns, target.value, target.value);
      var view := Lookup(turns, target.value).GetOr(TurnView(target.value, InProgress, []));
      var (status, items) := Changed(view, event, event.turnId.None? && f.current.None?);
      PutFacts(turns, target.value, status, items, id);
      hide Changed, Ensured, Put, Lookup, Ids;
    }
  }

  /** The view of a turn is made from the events that belong to it. */
  lemma {:induction false} ViewsAreOwn(events: seq<Event>, id: TurnId)
    ensures Lookup(ProjectAll(NOTHING, events).turns, id) == ViewOf(events, id)
  {
    if events != [] {
      var front, last := events[..|events| - 1], events[|events| - 1];
      assert events == front + [last];
      ViewsAreOwn(front, id);
      ProjectLast(NOTHING, front, last);
      LookupAfter(ProjectAll(NOTHING, front), last, id);
      TargetIs(front, last, id);
      hide Projected, ViewAfter, Target, GoesTo, SomeOpen, ProjectAll, Lookup;
    }
  }

  // ---------- How a turn stands ----------

  /** The status an event gives the turn it belongs to, if it decides one. */
  ghost function Decides(before: seq<Event>, event: Event): Option<Status> {
    match event.kind
    case TurnStarted => Some(InProgress)
    case TurnCompleted => Some(Completed)
    case TurnInterrupted => Some(Interrupted)
    case RuntimeError(_) => Some(Failed)
    case GoalReport(_) => if Synthetic(before, event) then Some(Completed) else None
    case _ => None
  }

  ghost predicate DecidedAt(events: seq<Event>, id: TurnId, k: nat) {
    k < |events| && GoesTo(events[..k], events[k], id) && Decides(events[..k], events[k]).Some?
  }

  ghost predicate Undecided(events: seq<Event>, id: TurnId, from: nat) {
    forall k: nat | from <= k :: !DecidedAt(events, id, k)
  }

  /** A status is that of the last event that decides one, or in progress when none does. */
  ghost predicate StandsAs(events: seq<Event>, id: TurnId, status: Status) {
    || (status == InProgress && Undecided(events, id, 0))
    || (exists k: nat :: DecidedAt(events, id, k) && Undecided(events, id, k + 1)
                         && Decides(events[..k], events[k]) == Some(status))
  }

  lemma DecidedLast(front: seq<Event>, last: Event, id: TurnId, k: nat)
    ensures DecidedAt(front + [last], id, k) <==>
            if k == |front| then GoesTo(front, last, id) && Decides(front, last).Some? else DecidedAt(front, id, k)
    ensures k < |front| ==> (front + [last])[..k] == front[..k] && (front + [last])[k] == front[k]
    ensures (front + [last])[..|front|] == front
  {
    assert k < |front| ==> (front + [last])[..k] == front[..k];
    assert (front + [last])[..|front|] == front;
  }

  lemma StandsOn(front: seq<Event>, last: Event, id: TurnId, status: Status)
    requires StandsAs(front, id, status)
    ensures var decided := if GoesTo(front, last, id) then Decides(front, last) else None;
            StandsAs(front + [last], id, decided.GetOr(status))
  {
    var all, n := front + [last], |front|;
    forall k: nat
      ensures DecidedAt(all, id, k) <==>
              if k == n then GoesTo(front, last, id) && Decides(front, last).Some? else DecidedAt(front, id, k)
    {
      DecidedLast(front, last, id, k);
    }
    DecidedLast(front, last, id, n);
    hide GoesTo, Decides;
    if GoesTo(front, last, id) && Decides(front, last).Some? {
      assert DecidedAt(all, id, n);
      assert Undecided(all, id, n + 1);
    } else if Undecided(front, id, 0) && status == InProgress {
      assert Undecided(all, id, 0);
    } else {
      var k: nat :| DecidedAt(front, id, k) && Undecided(front, id, k + 1)
                    && Decides(front[..k], front[k]) == Some(status);
      DecidedLast(front, last, id, k);
      assert DecidedAt(all, id, k) && Undecided(all, id, k + 1);
    }
  }

  lemma {:induction false} StatusIsDecided(events: seq<Event>, id: TurnId)
    ensures StandsAs(events, id, if ViewOf(events, id).Some? then ViewOf(events, id).value.status else InProgress)
  {
    if events == [] {
      assert Undecided(events, id, 0);
    } else {
      var front, last := events[..|events| - 1], events[|events| - 1];
      assert events == front + [last];
      StatusIsDecided(front, id);
      var status := if ViewOf(front, id).Some? then ViewOf(front, id).value.status else InProgress;
      StandsOn(front, last, id, status);
      hide StandsAs, GoesTo, Synthetic, ItemFor, Settled, WithInvocation;
    }
  }

  // ---------- The events of a turn and the items they leave ----------

  /** The events that belong to the turn, in order. */
  ghost function Own(events: seq<Event>, id: TurnId): seq<Event> {
    if events == [] then []
    else
      var front, last := events[..|events| - 1], events[|events| - 1];
      Own(front, id) + if GoesTo(front, last, id) then [last] else []
  }

  function ItemsAfter(items: seq<ThreadItem>, event: Event): seq<ThreadItem> {
    Changed(TurnView("", InProgress, items), event, false).1
  }

  function ItemsOf(own: seq<Event>): seq<ThreadItem> {
    if own == [] then [] else ItemsAfter(ItemsOf(own[..|own| - 1]), own[|own| - 1])
  }

  lemma OnlyItemsMatter(view: TurnView, event: Event, synthetic: bool)
    ensures Changed(view, event, synthetic).1 == ItemsAfter(view.items, event)
  {
    hide ItemFor, Settled, WithInvocation;
  }

  lemma {:induction false} ItemsAreOwn(events: seq<Event>, id: TurnId)
    ensures ViewOf(events, id).Some? <==> Own(events, id) != []
    ensures ViewOf(events, id).GetOr(TurnView(id, InProgress, [])).items == ItemsOf(Own(events, id))
    ensures ViewOf(events, id).GetOr(TurnView(id, InProgress, [])).id == id
  {
    if events != [] {
      var front, last := events[..|events| - 1], events[|events| - 1];
      ItemsAreOwn(front, id);
      var view := ViewOf(front, id).GetOr(TurnView(id, InProgress, []));
      OnlyItemsMatter(view, last, Synthetic(front, last));
      var own := Own(front, id) + [last];
      assert own[..|own| - 1] == Own(front, id) && own[|own| - 1] == last;
      assert Own(front, id) + [] == Own(front, id);
      hide GoesTo, Synthetic, Changed, ItemsAfter;
    }
  }

  // ---------- How a tool invocation stands ----------

  /** What the last of the events that give something gives; `gives` also sees the events before. */
  function Latest<T>(own: seq<Event>, gives: (seq<Event>, Event) -> Option<T>): Option<T> {
    if own == [] then None
    else
      var front, last := own[..|own| - 1], own[|own| - 1];
      if gives(front, last).Some? then gives(front, last) else Latest(front, gives)
  }

  lemma {:induction false} LatestIsLast<T>(own: seq<Event>, gives: (seq<Event>, Event) -> Option<T>)
    ensures Latest(own, gives).None? ==> forall k | 0 <= k < |own| :: gives(own[..k], own[k]).None?
    ensures Latest(own, gives).Some? ==>
              exists k | 0 <= k < |own| ::
                gives(own[..k], own[k]) == Latest(own, gives)
                && forall j | k < j < |own| :: gives(own[..j], own[j]).None?
  {
    if own != [] {
      var front, last := own[..|own| - 1], own[|own| - 1];
      assert forall k | 0 <= k < |front| :: own[..k] == front[..k] && own[k] == front[k];
      if gives(front, last).None? {
        LatestIsLast(front, gives);
      }
    }
  }

  predicate Updates(event: Event, id: string) {
    event.kind.ToolInvocationEvent? && event.kind.invocationId == id
  }

  /** What an invocation waits for: the last update asking for it, unless a later one ended the wait. A finished
    * invocation no longer waits for user input, but it can still be settled by the approval it asked for. */
  function ApprovalAwaited(own: seq<Event>, id: string): Option<string> {
    Latest(own, (_: seq<Event>, event: Event) =>
      if !Updates(event, id) then None
      else if event.kind.update.WaitingApproval? then Some(Some(event.kind.update.approvalId))
      else if event.kind.update.Started? || event.kind.update.WaitingUserInput? then Some(None)
      else None).GetOr(None)
  }

  function InputAwaited(own: seq<Event>, id: string): Option<string> {
    Latest(own, (_: seq<Event>, event: Event) =>
      if !Updates(event, id) || event.kind.update.OutputDelta? then None
      else if event.kind.update.WaitingUserInput? then Some(Some(event.kind.update.requestId))
      else Some(None)).GetOr(None)
  }

  datatype Standing = Standing(status: string, reason: Option<string>, message: Option<string>)

  /** How an update, an approval decision or an answer leaves the invocation it concerns. */
  function StandingGiven(before: seq<Event>, event: Event, id: string): Option<Standing> {
    match event.kind
    case ToolInvocationEvent(invocationId, update) =>
      if invocationId != id || update.OutputDelta? then None
      else if update.Started? then Some(Standing("started", None, None))
      else if update.WaitingApproval? then Some(Standing("waiting_approval", Some(update.reason), None))
      else if update.WaitingUserInput? then Some(Standing("waiting_user_input", Some(update.reason), None))
      else if update.InvocationCompleted? then Some(Standing("completed", None, None))
      else if update.InvocationFailed? then Some(Standing("failed", None, Some(update.message)))
      else Some(Standing("cancelled", Some(update.reason), None))
    case ApprovalDecision(approvalId, decision) =>
      if ApprovalAwaited(before, id) == Some(approvalId) then Some(Standing(decision, None, None)) else None
    case UserInputResolved(requestId) =>
      if InputAwaited(before, id) == Some(requestId) then Some(Standing("completed", None, None)) else None
    case _ => None
  }

  function StandingOf(own: seq<Event>, id: string): Standing {
    Latest(own, (before, event) => StandingGiven(before, event, id)).GetOr(Standing("started", None, None))
  }

  /** The call and the name of the tool, told by every update that starts or ends the invocation. */
  function ToolOf(own: seq<Event>, id: string): Option<(string, string)> {
    Latest(own, (_: seq<Event>, event: Event) =>
      if Updates(event, id) && !event.kind.update.WaitingApproval? && !event.kind.update.WaitingUserInput?
         && !event.kind.update.OutputDelta?
      then Some((event.kind.update.toolCallId, event.kind.update.toolName))
      else None)
  }

  function MutatingOf(own: seq<Event>, id: string): Option<bool> {
    Latest(own, (_: seq<Event>, event: Event) =>
      if Updates(event, id) && event.kind.update.Started? then Some(event.kind.update.mutating) else None)
  }

  function Chunks(own: seq<Event>, id: string): seq<string> {
    if own == [] then []
    else
      var last := own[|own| - 1];
      Chunks(own[..|own| - 1], id)
      + if Updates(last, id) && last.kind.update.OutputDelta? then [last.kind.update.chunk] else []
  }

  function PreviewOf(own: seq<Event>, id: string): Option<string> {
    if Chunks(own, id) == [] then None else Some(Concat(Chunks(own, id)))
  }

  /** The invocation as its turn's events tell it. */
  function Told(own: seq<Event>, id: string): Invocation {
    var standing, tool := StandingOf(own, id), ToolOf(own, id);
    Invocation(id, if tool.Some? then Some(tool.value.0) else None, if tool.Some? then Some(tool.value.1) else None,
               ApprovalAwaited(own, id), InputAwaited(own, id), standing.status, MutatingOf(own, id), standing.reason,
               standing.message, PreviewOf(own, id))
  }

  function InvocationIn(items: seq<ThreadItem>, id: string): Option<Invocation> {
    if items == [] then None
    else if IsInvocation(items[0], id) then Some(items[0].invocation)
    else InvocationIn(items[1..], id)
  }

  lemma {:induction false} FoundInConcat(a: seq<ThreadItem>, b: seq<ThreadItem>, id: string)
    ensures InvocationIn(a + b, id) == if InvocationIn(a, id).Some? then InvocationIn(a, id) else InvocationIn(b, id)
  {
    if a == [] {
      assert a + b == b;
    } else {
      assert (a + b)[1..] == a[1..] + b;
      FoundInConcat(a[1..], b, id);
    }
  }

  lemma {:induction false} FoundAfterUpdate(items: seq<ThreadItem>, other: string, update: InvocationUpdate, id: string)
    ensures InvocationIn(WithInvocation(items, other, update), id) ==
            if other == id then Some(UpdatedInvocation(InvocationIn(items, id).GetOr(NewInvocation(id)), update))
            else InvocationIn(items, id)
  {
    UpdateKeepsId(NewInvocation(other), update);
    var result := WithInvocation(items, other, update);
    if items == [] {
      assert result[1..] == [];
    } else if IsInvocation(items[0], other) {
      UpdateKeepsId(items[0].invocation, update);
      assert result[1..] == items[1..];
    } else {
      FoundAfterUpdate(items[1..], other, update, id);
      assert result[1..] == WithInvocation(items[1..], other, update);
    }
    hide UpdatedInvocation;
  }

  lemma UpdateKeepsId(i: Invocation, update: InvocationUpdate)
    ensures UpdatedInvocation(i, update).id == i.id
  {
  }

  lemma {:induction false} FoundAfterSettling(
    items: seq<ThreadItem>, approvalId: Option<string>, requestId: Option<string>, status: string, id: string)
    ensures InvocationIn(Settled(items, approvalId, requestId, status), id) ==
            if InvocationIn(items, id).None? then None
            else
              var found := ToolInvocation(InvocationIn(items, id).value);
              Some(SettledItem(found, approvalId, requestId, status).invocation)
  {
    if items != [] {
      FoundAfterSettling(items[1..], approvalId, requestId, status, id);
      assert Settled(items, approvalId, requestId, status)[1..] == Settled(items[1..], approvalId, requestId, status);
    }
  }

  /** How the invocation an event concerns is left, told from how it stood. */
  function Advanced(i: Invocation, event: Event): Invocation {
    match event.kind
    case ToolInvocationEvent(id, update) => if i.id == id then UpdatedInvocation(i, update) else i
    case ApprovalDecision(approvalId, decision) =>
      SettledItem(ToolInvocation(i), Some(approvalId), None, decision).invocation
    case UserInputResolved(requestId) => SettledItem(ToolInvocation(i), None, Some(requestId), "completed").invocation
    case _ => i
  }

  lemma AwaitedAfter(own: seq<Event>, event: Event, id: string)
    ensures ApprovalAwaited(own + [event], id) == Advanced(Told(own, id), event).approvalId
    ensures InputAwaited(own + [event], id) == Advanced(Told(own, id), event).requestId
  {
    assert (own + [event])[..|own|] == own;
    hide StandingOf, ToolOf, MutatingOf, PreviewOf;
  }

  lemma StandingAfter(own: seq<Event>, event: Event, id: string)
    ensures var after := Advanced(Told(own, id), event);
            StandingOf(own + [event], id) == Standing(after.status, after.reason, after.message)
  {
    assert (own + [event])[..|own|] == own;
    hide ApprovalAwaited, InputAwaited, ToolOf, MutatingOf, PreviewOf;
  }

  lemma ToolAfter(own: seq<Event>, event: Event, id: string)
    ensures var after, tool := Advanced(Told(own, id), event), ToolOf(own + [event], id);
            && after.toolCallId == (if tool.Some? then Some(tool.value.0) else None)
            && after.toolName == (if tool.Some? then Some(tool.value.1) else None)
            && after.mutating == MutatingOf(own + [event], id)
  {
    assert (own + [event])[..|own|] == own;
    hide ApprovalAwaited, InputAwaited, StandingOf, PreviewOf;
  }

  lemma PreviewAfter(own: seq<Event>, event: Event, id: string)
    ensures PreviewOf(own + [event], id) == Advanced(Told(own, id), event).outputPreview
  {
    assert (own + [event])[..|own|] == own;
    var chunks := Chunks(own, id);
    if Updates(event, id) && event.kind.update.OutputDelta? {
      var chunk := event.kind.update.chunk;
      ConcatAppend(chunks, [chunk]);
      assert Concat([chunk]) == chunk;
      assert Chunks(own + [event], id) == chunks + [chunk];
    } else {
      assert chunks + [] == chunks;
    }
    hide ApprovalAwaited, InputAwaited, StandingOf, ToolOf, MutatingOf;
  }

  lemma ToldAfter(own: seq<Event>, event: Event, id: string)
    ensures Told(own + [event], id) == Advanced(Told(own, id), event)
  {
    AwaitedAfter(own, event, id);
    StandingAfter(own, event, id);
    ToolAfter(own, event, id);
    PreviewAfter(own, event, id);
    assert Advanced(Told(own, id), event).id == id;
    hide ApprovalAwaited, InputAwaited, StandingOf, ToolOf, MutatingOf, PreviewOf, Advanced;
  }

  lemma FoundAfter(items: seq<ThreadItem>, event: Event, id: string)
    ensures InvocationIn(items, id).Some? ==> InvocationIn(items, id).value.id == id
    ensures var before, after := InvocationIn(items, id), InvocationIn(ItemsAfter(items, event), id);
            && (after.Some? <==> before.Some? || Updates(event, id))
            && after.GetOr(NewInvocation(id)) == Advanced(before.GetOr(NewInvocation(id)), event)
  {
    FoundHasId(items, id);
    NotFoundInPlain(event, id);
    hide InvocationIn, ItemFor, UpdatedInvocation, Settled, WithInvocation;
    FoundInConcat(items, ItemFor(event), id);
    match event.kind {
      case ApprovalDecision(approvalId, decision) =>
        FoundAfterSettling(items, Some(approvalId), None, decision, id);
        FoundInConcat(Settled(items, Some(approvalId), None, decision), ItemFor(event), id);
      case UserInputResolved(requestId) =>
        FoundAfterSettling(items, None, Some(requestId), "completed", id);
        FoundInConcat(Settled(items, None, Some(requestId), "completed"), ItemFor(event), id);
      case ToolInvocationEvent(other, update) => FoundAfterUpdate(items, other, update, id);
      case _ =>
    }
  }

  lemma {:induction false} FoundHasId(items: seq<ThreadItem>, id: string)
    ensures InvocationIn(items, id).Some? ==> InvocationIn(items, id).value.id == id
  {
    if items != [] {
      FoundHasId(items[1..], id);
    }
  }

  lemma NotFoundInPlain(event: Event, id: string)
    ensures InvocationIn(ItemFor(event), id).None?
  {
  }

  lemma {:induction false} FoundIsTold(own: seq<Event>, id: string)
    ensures InvocationIn(ItemsOf(own), id).Some? <==> exists event <- own :: Updates(event, id)
    ensures InvocationIn(ItemsOf(own), id).GetOr(NewInvocation(id)) == Told(own, id)
  {
    if own != [] {
      var front, last := own[..|own| - 1], own[|own| - 1];
      assert own == front + [last];
      FoundIsTold(front, id);
      FoundAfter(ItemsOf(front), last, id);
      ToldAfter(front, last, id);
      hide InvocationIn, ItemsAfter, Updates, Told, Advanced, NewInvocation;
    }
  }

  /** For every event sequence the view of a turn shows an invocation exactly when an event of the turn updates it,
    * and the invocation shown is the one the turn's events tell. */
  lemma InvocationsTell(events: seq<Event>, turn: TurnId, id: string)
    ensures var view, own := Lookup(ProjectAll(NOTHING, events).turns, turn), Own(events, turn);
            var found := if view.Some? then InvocationIn(view.value.items, id) else None;
            && (found.Some? <==> exists event <- own :: Updates(event, id))
            && (found.Some? ==> found.value == Told(own, id))
  {
    ViewsAreOwn(events, turn);
    ItemsAreOwn(events, turn);
    FoundIsTold(Own(events, turn), id);
    hide ProjectAll, Lookup, ViewOf, Own, ItemsOf, InvocationIn, Told;
  }

  // ---------- What the items tell ----------

  predicate Bears(event: Event) {
    || (event.kind.AssistantTurn? && event.kind.text.Some?) || event.kind.ReasoningDone? || event.kind.ToolFinished?
    || event.kind.Output? || event.kind.RuntimeError? || event.kind.Reported? || event.kind.ApprovalDecision?
    || event.kind.UserInputResolved? || event.kind.GoalReport?
  }

  predicate IsNew(before: seq<Event>, id: string) {
    forall event <- before :: !Updates(event, id)
  }

  /** The events that leave an item: those bearing one of their own, and the first update of every invocation. */
  function Leaving(own: seq<Event>): seq<Event> {
    if own == [] then []
    else
      var front, last := own[..|own| - 1], own[|own| - 1];
      Leaving(front)
      + if Bears(last) || (last.kind.ToolInvocationEvent? && IsNew(front, last.kind.invocationId)) then [last] else []
  }

  /** The item tells the event: its kind, its id and its text. */
  predicate Tells(item: ThreadItem, event: Event) {
    match item
    case UserMessage(_, _) => false
    case AssistantMessage(id, reply) => id == Some(event.eventId) && event.kind == AssistantTurn(reply)
    case Reasoning(id, summary, content) => id == Some(event.eventId) && event.kind == ReasoningDone(summary, content)
    case ToolInvocation(invocation) => Updates(event, invocation.id)
    case ToolResult(id, name) => id == Some(event.eventId) && event.kind == ToolFinished(name)
    case ExecOutput(id, output) => id == Some(event.eventId) && event.kind == Output(output)
    case OtherItem(id, payload) =>
      id == Some(event.eventId)
      && (|| event.kind == RuntimeError(payload) || event.kind == Reported(payload)
          || event.kind == UserInputResolved(payload) || event.kind == GoalReport(payload)
          || (event.kind.ApprovalDecision? && event.kind.decision == payload))
  }

  /** One item for each event, in order. */
  predicate TellAll(items: seq<ThreadItem>, events: seq<Event>) {
    |items| == |events| && forall i | 0 <= i < |items| :: Tells(items[i], events[i])
  }

  lemma {:induction false} SettlingTells(
    items: seq<ThreadItem>, events: seq<Event>, approvalId: Option<string>, requestId: Option<string>, status: string)
    requires TellAll(items, events)
    ensures TellAll(Settled(items, approvalId, requestId, status), events)
  {
    if items != [] {
      SettlingTells(items[1..], events[1..], approvalId, requestId, status);
      assert events == [events[0]] + events[1..];
    }
  }

  lemma {:induction false} UpdatingTells(
    items: seq<ThreadItem>, events: seq<Event>, id: string, update: InvocationUpdate, event: Event)
    requires TellAll(items, events) && Updates(event, id)
    ensures TellAll(WithInvocation(items, id, update),
                    events + if InvocationIn(items, id).Some? then [] else [event])
  {
    UpdateKeepsId(NewInvocation(id), update);
    if items == [] {
    } else if IsInvocation(items[0], id) {
      UpdateKeepsId(items[0].invocation, update);
    } else {
      UpdatingTells(items[1..], events[1..], id, update, event);
      assert events == [events[0]] + events[1..];
    }
    hide UpdatedInvocation;
  }

  lemma ItemTells(event: Event)
    ensures TellAll(ItemFor(event), if Bears(event) then [event] else [])
  {
  }

  lemma TellingMore(items: seq<ThreadItem>, events: seq<Event>, event: Event)
    requires TellAll(items, events)
    ensures TellAll(items + ItemFor(event), events + if Bears(event) then [event] else [])
  {
    ItemTells(event);
    hide ItemFor, Tells, Bears;
  }

  lemma TellsAfter(items: seq<ThreadItem>, events: seq<Event>, event: Event)
    requires TellAll(items, events)
    ensures var left := Bears(event) || (event.kind.ToolInvocationEvent?
                                         && InvocationIn(items, event.kind.invocationId).None?);
            TellAll(ItemsAfter(items, event), events + if left then [event] else [])
  {
    TellingMore(items, events, event);
    hide ItemFor, Settled, WithInvocation, TellAll, InvocationIn;
    match event.kind {
      case ApprovalDecision(approvalId, decision) =>
        SettlingTells(items, events, Some(approvalId), None, decision);
        TellingMore(Settled(items, Some(approvalId), None, decision), events, event);
      case UserInputResolved(requestId) =>
        SettlingTells(items, events, None, Some(requestId), "completed");
        TellingMore(Settled(items, None, Some(requestId), "completed"), events, event);
      case ToolInvocationEvent(id, update) => UpdatingTells(items, events, id, update, event);
      case _ =>
    }
  }

  lemma {:induction false} ItemsTell(own: seq<Event>)
    ensures TellAll(ItemsOf(own), Leaving(own))
  {
    if own != [] {
      var front, last := own[..|own| - 1], own[|own| - 1];
      ItemsTell(front);
      TellsAfter(ItemsOf(front), Leaving(front), last);
      if last.kind.ToolInvocationEvent? {
        FoundIsTold(front, last.kind.invocationId);
      }
      hide ItemsAfter, TellAll, Bears, InvocationIn, Updates;
    }
  }

  /** For every event sequence a turn has a view exactly when some event belongs to it; the view holds one item for
    * each of the turn's events that leave one, in order, telling that event; and its status is that of the last
    * event deciding one. */
  lemma TranscriptTells(events: seq<Event>, id: TurnId)
    ensures var view, own := Lookup(ProjectAll(NOTHING, events).turns, id), Own(events, id);
            && (view.Some? <==> own != [])
            && (view.Some? ==> TellAll(view.value.items, Leaving(own)) && StandsAs(events, id, view.value.status))
  {
    ViewsAreOwn(events, id);
    ItemsAreOwn(events, id);
    ItemsTell(Own(events, id));
    StatusIsDecided(events, id);
    hide ProjectAll, Lookup, ViewOf, StandsAs, Own, ItemsOf, TellAll, Leaving;
  }
}
