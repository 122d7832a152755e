/** The context manager: conversation history, the context the model was last told about, and rebuilding both from the
  * rollout. Context messages are lists of labelled values rather than formatted text. */
module ContextManager {
  import opened Text
  import opened Wrappers

  /** The displayed fields, runtime context first. */
  datatype Field =
    | Model | ThinkingMode | PolicyMode | PermissionProfile | ExecutionBoundary | CommandTimeout | MaxOutput | TurnMode
    | AgentType | AgentRole | ProfileInstructions | ResponseGuidance | ModeGuidance
    | WorkspaceRoot | WorkingDirectory | UtcDate

  /** What a full injection may show, and what an update tells the changes of. */
  const FULL_RUNTIME_FIELDS := [
    Model, ThinkingMode, PolicyMode, PermissionProfile, ExecutionBoundary, CommandTimeout, MaxOutput, TurnMode,
    AgentType, AgentRole, ProfileInstructions, ResponseGuidance, ModeGuidance]
  const RUNTIME_FIELDS := [
    Model, ThinkingMode, PolicyMode, PermissionProfile, CommandTimeout, MaxOutput, TurnMode,
    AgentType, AgentRole, ProfileInstructions, ResponseGuidance]
  const ENVIRONMENT_FIELDS := [WorkspaceRoot, WorkingDirectory, UtcDate]

  datatype Permission = FullAccess | External | Managed {
    function Label(): string {
      match this
      case FullAccess => "full_access"
      case External => "external"
      case Managed => "managed"
    }

    function Boundary(): string {
      match this
      case FullAccess => "filesystem sandbox: none; network sandbox: none; env isolation: none"
      case External => "execution boundary: provided outside ExAgent"
      case Managed => "execution boundary: managed OS sandbox"
    }
  }

  datatype TurnContext = TurnContext(
    turnId: string,
    workspaceRoot: string,
    cwd: string,
    model: string,
    policyMode: string,
    permissionProfile: Permission,
    commandTimeoutSecs: nat,
    maxOutputBytes: nat,
    planMode: bool,
    agentType: Option<string>,
    profileInstructions: Option<string>,
    responseGuidance: Option<string>,
    agentRole: Option<string>,
    thinkingMode: Option<string>,
    utcDate: Option<string>)

  /** Stands for the text of the plan mode overlay. */
  const PLAN_GUIDANCE := "plan mode guidance"

  /** How a field is displayed. The boundary and the guidance of the turn mode are displayed by full injections only. */
  function Display(context: TurnContext, field: Field): string {
    match field
    case Model => context.model
    case ThinkingMode => context.thinkingMode.GetOr("default")
    case PolicyMode => context.policyMode
    case PermissionProfile => context.permissionProfile.Label()
    case ExecutionBoundary => context.permissionProfile.Boundary()
    case CommandTimeout => Decimal(context.commandTimeoutSecs) + "s"
    case MaxOutput => Decimal(context.maxOutputBytes) + " bytes"
    case TurnMode => if context.planMode then "plan" else "default"
    case AgentType => context.agentType.GetOr("unknown")
    case AgentRole => context.agentRole.GetOr("unknown")
    case ProfileInstructions => context.profileInstructions.GetOr("unknown")
    case ResponseGuidance => context.responseGuidance.GetOr("unknown")
    case ModeGuidance => if context.planMode then PLAN_GUIDANCE else "none"
    case WorkspaceRoot => context.workspaceRoot
    case WorkingDirectory => context.cwd
    case UtcDate => context.utcDate.GetOr("unknown")
  }

  datatype Line = Line(field: Field, value: string)
  datatype Change = Change(field: Field, previous: string, current: string)

  datatype Message =
    | Conversation(text: string)
    | RuntimeContext(lines: seq<Line>)
    | EnvironmentContext(lines: seq<Line>)
    | ContextUpdated(changes: seq<Change>)

  // ---------- Messages for a context ----------

  /** Which fields a full runtime-context message mentions: default turn mode, its guidance and absent agent fields are
    * left out, and the two profile texts appear only together. */
  predicate Shown(context: TurnContext, field: Field) {
    match field
    case TurnMode => context.planMode
    case AgentType => context.agentType.Some?
    case AgentRole => context.agentRole.Some?
    case ProfileInstructions => context.profileInstructions.Some? && context.responseGuidance.Some?
    case ResponseGuidance => context.profileInstructions.Some? && context.responseGuidance.Some?
    case ModeGuidance => context.planMode
    case _ => true
  }

  function LinesFor(context: TurnContext, fields: seq<Field>): seq<Line> {
    if fields == [] then []
    else (if Shown(context, fields[0]) then [Line(fields[0], Display(context, fields[0]))] else [])
         + LinesFor(context, fields[1..])
  }

  function InitialMessages(context: TurnContext): seq<Message> {
    [RuntimeContext(LinesFor(context, FULL_RUNTIME_FIELDS)),
     EnvironmentContext(LinesFor(context, ENVIRONMENT_FIELDS))]
  }

  function ChangesFor(previous: TurnContext, current: TurnContext, fields: seq<Field>): seq<Change> {
    if fields == [] then []
    else
      var field := fields[0];
      (if Display(previous, field) != Display(current, field)
       then [Change(field, Display(previous, field), Display(current, field))] else [])
      + ChangesFor(previous, current, fields[1..])
  }

  function UpdateMessages(previous: TurnContext, current: TurnContext): seq<Message> {
    OptionalUpdate(ChangesFor(previous, current, RUNTIME_FIELDS))
    + OptionalUpdate(ChangesFor(previous, current, ENVIRONMENT_FIELDS))
  }

  function OptionalUpdate(changes: seq<Change>): seq<Message> {
    if changes != [] then [ContextUpdated(changes)] else []
  }

  // ---------- The manager ----------

  const MAX_VERSION: nat := 0xFFFF_FFFF_FFFF_FFFF

  function NextVersion(version: nat): nat {
    if version < MAX_VERSION then version + 1 else version
  }

  datatype State = State(
    items: seq<Message>,
    reference: Option<TurnContext>,
    tokenInfo: Option<int>,
    historyVersion: nat)

  const EMPTY := State([], None, None, 0)

  function Recorded(s: State, messages: seq<Message>): State {
    if messages == [] then s
    else s.(items := s.items + messages, historyVersion := NextVersion(s.historyVersion))
  }

  function Replaced(s: State, items: seq<Message>, reference: Option<TurnContext>): State {
    State(items, reference, None, NextVersion(s.historyVersion))
  }

  function ContextMessages(s: State, context: TurnContext): seq<Message> {
    match s.reference
    case Some(previous) => UpdateMessages(previous, context)
    case None => InitialMessages(context)
  }

  function Updated(s: State, context: TurnContext): State {
    Recorded(s, ContextMessages(s, context)).(reference := Some(context))
  }

  datatype RolloutItem =
    | ResponseItem(message: Message)
    | TurnContextItem(context: TurnContext)
    | Compacted(replacement: Option<seq<Message>>)
    | TokenCount(info: Option<int>)
    | Unrelated

  function Replay(s: State, item: RolloutItem): State {
    match item
    case ResponseItem(message) => Recorded(s, [message])
    case TurnContextItem(context) => s.(reference := Some(context))
    case Compacted(Some(items)) => Replaced(s, items, None)
    case Compacted(None) => s
    case TokenCount(info) => s.(tokenInfo := info)
    case Unrelated => s
  }

  function ReplayAll(s: State, items: seq<RolloutItem>): State
    decreases |items|
  {
    if items == [] then s else ReplayAll(Replay(s, items[0]), items[1..])
  }

  class Manager {
    var items: seq<Message>
    var referenceTurnContext: Option<TurnContext>
    var tokenInfo: Option<int>
    var historyVersion: nat

    function View(): State
      reads this
    {
      State(items, referenceTurnContext, tokenInfo, historyVersion)
    }

    constructor ()
      ensures View() == EMPTY
    {
      items, referenceTurnContext, tokenInfo, historyVersion := [], None, None, 0;
    }

    method RecordItems(messages: seq<Message>)
      modifies this
      ensures View() == Recorded(old(View()), messages)
    {
      var previousLength := |items|;
      items := items + messages;
      if |items| != previousLength {
        historyVersion := NextVersion(historyVersion);
      }
    }

    method ReplaceHistory(replacement: seq<Message>, reference: Option<TurnContext>)
      modifies this
      ensures View() == Replaced(old(View()), replacement, reference)
    {
      items := replacement;
      referenceTurnContext := reference;
      tokenInfo := None;
      historyVersion := NextVersion(historyVersion);
    }

    method ApplyContextUpdates(context: TurnContext) returns (messages: seq<Message>)
      modifies this
      ensures messages == ContextMessages(old(View()), context)
      ensures View() == Updated(old(View()), context)
    {
      match referenceTurnContext {
        case Some(previous) => messages := BuildContextUpdateMessages(previous, context);
        case None => messages := InitialMessages(context);
      }
      if messages != [] {
        RecordItems(messages);
      }
      referenceTurnContext := Some(context);
    }

    method LoadRollout(rollout: seq<RolloutItem>)
      modifies this
      ensures View() == ReplayAll(old(View()), rollout)
    {
      hide Recorded, Replaced;
      for i := 0 to |rollout|
        invariant ReplayAll(View(), rollout[i..]) == ReplayAll(old(View()), rollout)
      {
        assert rollout[i..][1..] == rollout[i + 1..];
        match rollout[i] {
          case ResponseItem(message) => RecordItems([message]);
          case TurnContextItem(context) => referenceTurnContext := Some(context);
          case Compacted(Some(replacement)) => ReplaceHistory(replacement, None);
          case Compacted(None) =>
          case TokenCount(info) => tokenInfo := info;
          case Unrelated =>
        }
      }
    }
  }

  method PushChanged(updates: seq<Change>, previous: TurnContext, current: TurnContext, fields: seq<Field>)
    returns (pushed: seq<Change>)
    ensures pushed == updates + ChangesFor(previous, current, fields)
  {
    pushed := updates;
    for i := 0 to |fields|
      invariant pushed + ChangesFor(previous, current, fields[i..]) == updates + ChangesFor(previous, current, fields)
    {
      hide Display;
      var old', new' := Display(previous, fields[i]), Display(current, fields[i]);
      assert fields[i..][1..] == fields[i + 1..];
      if old' != new' {
        pushed := pushed + [Change(fields[i], old', new')];
      }
    }
    assert fields[|fields|..] == [];
  }

  method BuildContextUpdateMessages(previous: TurnContext, current: TurnContext) returns (messages: seq<Message>)
    ensures messages == UpdateMessages(previous, current)
  {
    var runtimeUpdates := PushChanged([], previous, current, RUNTIME_FIELDS);
    var environmentUpdates := PushChanged([], previous, current, ENVIRONMENT_FIELDS);
    hide ChangesFor;
    assert runtimeUpdates == ChangesFor(previous, current, RUNTIME_FIELDS);
    assert environmentUpdates == ChangesFor(previous, current, ENVIRONMENT_FIELDS);
    messages := [];
    if runtimeUpdates != [] {
      messages := messages + [ContextUpdated(runtimeUpdates)];
    }
    assert messages == OptionalUpdate(runtimeUpdates);
    if environmentUpdates != [] {
      messages := messages + [ContextUpdated(environmentUpdates)];
    }
    assert messages == OptionalUpdate(runtimeUpdates) + OptionalUpdate(environmentUpdates);
  }

  // ---------- What a reader of the history knows ----------

  /** What a full-context message says about a field by leaving it out. */
  function Absent(field: Field): string {
    match field
    case TurnMode => "default"
    case ModeGuidance => "none"
    case _ => "unknown"
  }

  function Stated(lines: seq<Line>, field: Field): string {
    if lines == [] then Absent(field)
    else if lines[0].field == field then lines[0].value
    else Stated(lines[1..], field)
  }

  function Latest(changes: seq<Change>, known: Option<string>, field: Field): Option<string>
    decreases |changes|
  {
    if changes == [] then known
    else Latest(changes[1..], if changes[0].field == field then Some(changes[0].current) else known, field)
  }

  function ReadMessage(known: Option<string>, message: Message, field: Field): Option<string> {
    match message
    case Conversation(_) => known
    case RuntimeContext(lines) => if field in FULL_RUNTIME_FIELDS then Some(Stated(lines, field)) else known
    case EnvironmentContext(lines) => if field in ENVIRONMENT_FIELDS then Some(Stated(lines, field)) else known
    case ContextUpdated(changes) => Latest(changes, known, field)
  }

  /** The value of a field after reading messages in order: full-context messages set it, changes overwrite it. */
  function ReadFrom(known: Option<string>, messages: seq<Message>, field: Field): Option<string>
    decreases |messages|
  {
    if messages == [] then known else ReadFrom(ReadMessage(known, messages[0], field), messages[1..], field)
  }

  function Reading(items: seq<Message>, field: Field): Option<string> {
    ReadFrom(None, items, field)
  }

  lemma {:induction false} ReadConcat(known: Option<string>, a: seq<Message>, b: seq<Message>, field: Field)
    ensures ReadFrom(known, a + b, field) == ReadFrom(ReadFrom(known, a, field), b, field)
    decreases |a|
  {
    if a == [] {
      assert a + b == b;
    } else {
      assert (a + b)[1..] == a[1..] + b;
      ReadConcat(ReadMessage(known, a[0], field), a[1..], b, field);
    }
  }

  lemma {:induction false} LinesState(context: TurnContext, fields: seq<Field>, field: Field)
    ensures Stated(LinesFor(context, fields), field) ==
            if field in fields && Shown(context, field) then Display(context, field) else Absent(field)
  {
    hide Shown, Display;
    if fields != [] {
      LinesState(context, fields[1..], field);
      assert field in fields <==> field == fields[0] || field in fields[1..];
      if Shown(context, fields[0]) {
        assert LinesFor(context, fields)[1..] == LinesFor(context, fields[1..]);
      } else {
        assert LinesFor(context, fields) == LinesFor(context, fields[1..]);
      }
    }
  }

  lemma {:induction false} ChangesTell(
    previous: TurnContext, current: TurnContext, fields: seq<Field>, known: Option<string>, field: Field)
    ensures Latest(ChangesFor(previous, current, fields), known, field) ==
            if field in fields && Display(previous, field) != Display(current, field) then Some(Display(current, field))
            else known
    decreases |fields|
  {
    hide Display;
    if fields != [] {
      assert field in fields <==> field == fields[0] || field in fields[1..];
      var changed := Display(previous, fields[0]) != Display(current, fields[0]);
      if changed {
        assert ChangesFor(previous, current, fields)[1..] == ChangesFor(previous, current, fields[1..]);
      } else {
        assert ChangesFor(previous, current, fields) == ChangesFor(previous, current, fields[1..]);
      }
      ChangesTell(previous, current, fields[1..],
                  if changed && fields[0] == field then Some(Display(current, field)) else known, field);
    }
  }

  predicate ProfileField(field: Field) {
    field == ProfileInstructions || field == ResponseGuidance
  }

  /** The full message shows the profile texts, or they read as absent anyway. */
  predicate ProfileShown(context: TurnContext) {
    || (context.profileInstructions.Some? && context.responseGuidance.Some?)
    || (context.profileInstructions.GetOr("unknown") == context.responseGuidance.GetOr("unknown") == "unknown")
  }

  /** Updates tell the changes of every field but these two. */
  predicate Tracked(field: Field) {
    field != ExecutionBoundary && field != ModeGuidance
  }

  lemma EveryFieldOnce(field: Field)
    ensures field in FULL_RUNTIME_FIELDS <==> field !in ENVIRONMENT_FIELDS
  {
    assert FULL_RUNTIME_FIELDS[0] == Model && FULL_RUNTIME_FIELDS[1] == ThinkingMode;
    assert FULL_RUNTIME_FIELDS[2] == PolicyMode && FULL_RUNTIME_FIELDS[3] == PermissionProfile;
    assert FULL_RUNTIME_FIELDS[4] == ExecutionBoundary && FULL_RUNTIME_FIELDS[5] == CommandTimeout;
    assert FULL_RUNTIME_FIELDS[6] == MaxOutput && FULL_RUNTIME_FIELDS[7] == TurnMode;
    assert FULL_RUNTIME_FIELDS[8] == AgentType && FULL_RUNTIME_FIELDS[9] == AgentRole;
    assert FULL_RUNTIME_FIELDS[10] == ProfileInstructions && FULL_RUNTIME_FIELDS[11] == ResponseGuidance;
    assert FULL_RUNTIME_FIELDS[12] == ModeGuidance;
    assert ENVIRONMENT_FIELDS[0] == WorkspaceRoot && ENVIRONMENT_FIELDS[1] == WorkingDirectory;
    assert ENVIRONMENT_FIELDS[2] == UtcDate;
  }

  lemma TrackedIff(field: Field)
    ensures Tracked(field) <==> field in RUNTIME_FIELDS || field in ENVIRONMENT_FIELDS
  {
    assert RUNTIME_FIELDS[0] == Model && RUNTIME_FIELDS[1] == ThinkingMode && RUNTIME_FIELDS[2] == PolicyMode;
    assert RUNTIME_FIELDS[3] == PermissionProfile && RUNTIME_FIELDS[4] == CommandTimeout;
    assert RUNTIME_FIELDS[5] == MaxOutput;
    assert RUNTIME_FIELDS[6] == TurnMode && RUNTIME_FIELDS[7] == AgentType && RUNTIME_FIELDS[8] == AgentRole;
    assert RUNTIME_FIELDS[9] == ProfileInstructions && RUNTIME_FIELDS[10] == ResponseGuidance;
    assert ENVIRONMENT_FIELDS[0] == WorkspaceRoot && ENVIRONMENT_FIELDS[1] == WorkingDirectory;
    assert ENVIRONMENT_FIELDS[2] == UtcDate;
  }

  /** What a full injection says of a field. */
  function FullValue(context: TurnContext, field: Field): string {
    if Shown(context, field) then Display(context, field) else Absent(field)
  }

  lemma FullMessagesRead(known: Option<string>, context: TurnContext, field: Field)
    ensures ReadFrom(known, InitialMessages(context), field) == Some(FullValue(context, field))
  {
    LinesState(context, FULL_RUNTIME_FIELDS, field);
    LinesState(context, ENVIRONMENT_FIELDS, field);
    var messages := InitialMessages(context);
    assert messages[1..] == [messages[1]] && messages[1..][1..] == [];
    EveryFieldOnce(field);
    hide LinesFor, Stated, Display, Shown;
    var afterRuntime := ReadMessage(known, messages[0], field);
    assert ReadFrom(known, messages, field) == ReadFrom(afterRuntime, messages[1..], field);
    assert ReadFrom(afterRuntime, messages[1..], field) == ReadMessage(afterRuntime, messages[1], field);
  }

  lemma FullMessageTells(context: TurnContext, field: Field)
    ensures Reading(InitialMessages(context), field) == Some(Display(context, field))
       <==> Shown(context, field) || Display(context, field) == Absent(field)
  {
    hide InitialMessages, Display, Shown, ReadFrom;
    FullMessagesRead(None, context, field);
  }

  lemma AbsentOrShown(context: TurnContext, field: Field)
    requires !ProfileField(field)
    ensures Shown(context, field) || Display(context, field) == Absent(field)
  {
  }

  /** A full injection tells every displayed field exactly when the profile texts are both present or both read as
    * absent; with only one of them present the message shows neither. */
  lemma FullMessagesExact(context: TurnContext)
    ensures (forall field :: Reading(InitialMessages(context), field) == Some(Display(context, field)))
       <==> ProfileShown(context)
  {
    forall field
      ensures Reading(InitialMessages(context), field) == Some(Display(context, field))
         <==> Shown(context, field) || Display(context, field) == Absent(field)
      ensures !ProfileField(field) ==> Shown(context, field) || Display(context, field) == Absent(field)
    {
      FullMessageTells(context, field);
      if !ProfileField(field) {
        AbsentOrShown(context, field);
      }
    }
    ProfileTextsTogether(context);
    hide Reading, InitialMessages, Display, Shown, ProfileShown;
  }

  lemma ProfileTextsTogether(context: TurnContext)
    ensures ProfileShown(context) <==> forall field | ProfileField(field) ::
              Shown(context, field) || Display(context, field) == Absent(field)
  {
    assert ProfileField(ProfileInstructions) && ProfileField(ResponseGuidance);
  }

  /** Changes tell a tracked field's current value exactly when it has changed, and otherwise leave what the reader
    * knows; they never tell the others. */
  lemma UpdateMessagesRead(known: Option<string>, previous: TurnContext, current: TurnContext, field: Field)
    ensures ReadFrom(known, UpdateMessages(previous, current), field) ==
            if Tracked(field) && Display(previous, field) != Display(current, field)
            then Some(Display(current, field)) else known
  {
    var runtime := ChangesFor(previous, current, RUNTIME_FIELDS);
    var environment := ChangesFor(previous, current, ENVIRONMENT_FIELDS);
    ChangesTell(previous, current, RUNTIME_FIELDS, known, field);
    ChangesTell(previous, current, ENVIRONMENT_FIELDS, Latest(runtime, known, field), field);
    TrackedIff(field);
    hide ChangesFor, Display, Tracked;
    assert Latest([], known, field) == known;
    OptionalUpdateReads(known, runtime, field);
    OptionalUpdateReads(Latest(runtime, known, field), environment, field);
    ReadConcat(known, OptionalUpdate(runtime), OptionalUpdate(environment), field);
  }

  lemma OptionalUpdateReads(known: Option<string>, changes: seq<Change>, field: Field)
    ensures ReadFrom(known, OptionalUpdate(changes), field) == Latest(changes, known, field)
  {
    assert OptionalUpdate(changes) != [] ==> OptionalUpdate(changes)[1..] == [];
  }

  lemma {:induction false} NoChanges(previous: TurnContext, current: TurnContext, fields: seq<Field>)
    ensures ChangesFor(previous, current, fields) == []
       <==> forall field <- fields :: Display(previous, field) == Display(current, field)
  {
    hide Display;
    if fields != [] {
      NoChanges(previous, current, fields[1..]);
      assert forall field <- fields :: field == fields[0] || field in fields[1..];
    }
  }

  /** The fields that updates do not track follow two that they do. */
  lemma UntrackedFollow(previous: TurnContext, current: TurnContext)
    ensures Display(previous, ModeGuidance) == Display(current, ModeGuidance) <==> previous.planMode == current.planMode
    ensures Display(previous, TurnMode) == Display(current, TurnMode) <==> previous.planMode == current.planMode
    ensures Display(previous, ExecutionBoundary) == Display(current, ExecutionBoundary)
       <==> previous.permissionProfile == current.permissionProfile
    ensures Display(previous, PermissionProfile) == Display(current, PermissionProfile)
       <==> previous.permissionProfile == current.permissionProfile
  {
    BoundariesDiffer();
  }

  lemma BoundariesDiffer()
    ensures forall a: Permission, b: Permission :: a.Boundary() == b.Boundary() ==> a == b
    ensures forall a: Permission, b: Permission :: a.Label() == b.Label() ==> a == b
  {
    assert |FullAccess.Boundary()| == 68 && |External.Boundary()| == 44 && |Managed.Boundary()| == 38;
    assert |FullAccess.Label()| == 11 && |External.Label()| == 8 && |Managed.Label()| == 7;
  }

  /** An update adds no message exactly when no displayed field has changed. */
  lemma SilentUpdate(previous: TurnContext, current: TurnContext)
    ensures UpdateMessages(previous, current) == []
       <==> forall field :: Display(previous, field) == Display(current, field)
  {
    NoChanges(previous, current, RUNTIME_FIELDS);
    NoChanges(previous, current, ENVIRONMENT_FIELDS);
    UntrackedFollow(previous, current);
    forall field: Field ensures Tracked(field) <==> field in RUNTIME_FIELDS || field in ENVIRONMENT_FIELDS {
      TrackedIff(field);
    }
    assert Tracked(TurnMode) && Tracked(PermissionProfile);
    hide ChangesFor, Display;
  }

  /** Where a field stands in the messages. */
  function Place(field: Field): nat {
    match field
    case Model => 0
    case ThinkingMode => 1
    case PolicyMode => 2
    case PermissionProfile => 3
    case ExecutionBoundary => 4
    case CommandTimeout => 5
    case MaxOutput => 6
    case TurnMode => 7
    case AgentType => 8
    case AgentRole => 9
    case ProfileInstructions => 10
    case ResponseGuidance => 11
    case ModeGuidance => 12
    case WorkspaceRoot => 13
    case WorkingDirectory => 14
    case UtcDate => 15
  }

  /** Every change tells what the field was and what it is now, no field is told twice, and they stand in their
    * order. */
  ghost predicate ToldChanges(changes: seq<Change>, previous: TurnContext, current: TurnContext) {
    && (forall c <- changes ::
          c.previous == Display(previous, c.field) && c.current == Display(current, c.field) && c.previous != c.current)
    && forall i, j | 0 <= i < j < |changes| :: Place(changes[i].field) < Place(changes[j].field)
  }

  predicate InOrder(fields: seq<Field>) {
    forall i, j | 0 <= i < j < |fields| :: Place(fields[i]) < Place(fields[j])
  }

  lemma {:induction false} ChangesToldInOrder(previous: TurnContext, current: TurnContext, fields: seq<Field>)
    requires InOrder(fields)
    ensures ToldChanges(ChangesFor(previous, current, fields), previous, current)
    ensures forall c <- ChangesFor(previous, current, fields) :: c.field in fields
  {
    hide Display, Place;
    if fields != [] {
      ChangesToldInOrder(previous, current, fields[1..]);
      assert forall field <- fields[1..] :: Place(fields[0]) < Place(field);
    }
  }

  lemma FieldsInOrder()
    ensures InOrder(RUNTIME_FIELDS) && forall field <- RUNTIME_FIELDS :: Place(field) < 13
    ensures InOrder(ENVIRONMENT_FIELDS) && forall field <- ENVIRONMENT_FIELDS :: 13 <= Place(field)
  {
  }

  /** The message tells both values of each change, and it is about the environment or about the run. */
  ghost predicate UpdateTold(message: Message, previous: TurnContext, current: TurnContext, environment: bool) {
    && message.ContextUpdated? && message.changes != [] && ToldChanges(message.changes, previous, current)
    && forall c <- message.changes :: 13 <= Place(c.field) <==> environment
  }

  lemma OptionalUpdateTells(previous: TurnContext, current: TurnContext, fields: seq<Field>, environment: bool)
    requires InOrder(fields) && forall field <- fields :: 13 <= Place(field) <==> environment
    ensures forall m <- OptionalUpdate(ChangesFor(previous, current, fields)) ::
              UpdateTold(m, previous, current, environment)
  {
    ChangesToldInOrder(previous, current, fields);
    hide ChangesFor, ToldChanges, Place, InOrder;
  }

  /** An update is at most one message about the run followed by at most one about the environment; every change in them
    * tells both values. */
  lemma UpdatesTellBoth(previous: TurnContext, current: TurnContext)
    ensures var messages := UpdateMessages(previous, current);
            && |messages| <= 2
            && (forall m <- messages ::
                  UpdateTold(m, previous, current, false) || UpdateTold(m, previous, current, true))
            && (|messages| == 2 ==>
                  UpdateTold(messages[0], previous, current, false) && UpdateTold(messages[1], previous, current, true))
  {
    FieldsInOrder();
    OptionalUpdateTells(previous, current, RUNTIME_FIELDS, false);
    OptionalUpdateTells(previous, current, ENVIRONMENT_FIELDS, true);
    hide ChangesFor, UpdateTold, Place, InOrder;
  }

  lemma FullValuesSay(context: TurnContext)
    ensures var says := (field: Field) => FullValue(context, field);
            SaysAll(context, says)
  {
    BoundariesDiffer();
    hide Decimal;
  }

  /** What a full injection says of every field, in the spelling of the field. */
  predicate SaysAll(context: TurnContext, says: Field -> string) {
    && says(Model) == context.model && says(PolicyMode) == context.policyMode
    && says(WorkspaceRoot) == context.workspaceRoot && says(WorkingDirectory) == context.cwd
    && says(ThinkingMode) == context.thinkingMode.GetOr("default") && says(UtcDate) == context.utcDate.GetOr("unknown")
    && says(CommandTimeout) == Decimal(context.commandTimeoutSecs) + "s"
    && says(MaxOutput) == Decimal(context.maxOutputBytes) + " bytes"
    && says(TurnMode) == (if context.planMode then "plan" else "default")
    && (says(ModeGuidance) == "none" <==> !context.planMode)
    && says(AgentType) == context.agentType.GetOr("unknown") && says(AgentRole) == context.agentRole.GetOr("unknown")
    && (says(PermissionProfile) == "full_access" <==> context.permissionProfile == FullAccess)
    && (says(PermissionProfile) == "managed" <==> context.permissionProfile == Managed)
    && (context.profileInstructions.Some? && context.responseGuidance.Some? ==>
          says(ProfileInstructions) == context.profileInstructions.value
          && says(ResponseGuidance) == context.responseGuidance.value)
  }

  lemma SaidAlike(context: TurnContext, a: Field -> string, b: Field -> string)
    requires SaysAll(context, a) && forall field :: a(field) == b(field)
    ensures SaysAll(context, b)
  {
    hide Decimal;
  }

  function Said(context: TurnContext, field: Field): string {
    Reading(InitialMessages(context), field).GetOr("")
  }

  /** A full injection says of every field what the context holds. */
  lemma FullMessagesSay(context: TurnContext)
    ensures SaysAll(context, field => Said(context, field))
  {
    FullValuesSay(context);
    forall field: Field ensures Said(context, field) == FullValue(context, field) {
      FullMessagesRead(None, context, field);
    }
    hide Said, FullValue, SaysAll;
    SaidAlike(context, field => FullValue(context, field), field => Said(context, field));
  }

  // ---------- Replaying ----------

  /** Equal up to the version counter. */
  predicate Same(a: State, b: State) {
    a.items == b.items && a.reference == b.reference && a.tokenInfo == b.tokenInfo
  }

  lemma {:induction false} ReplayConcat(s: State, a: seq<RolloutItem>, b: seq<RolloutItem>)
    ensures ReplayAll(s, a + b) == ReplayAll(ReplayAll(s, a), b)
    decreases |a|
  {
    if a == [] {
      assert a + b == b;
    } else {
      assert (a + b)[1..] == a[1..] + b;
      ReplayConcat(Replay(s, a[0]), a[1..], b);
    }
  }

  lemma {:induction false} ReplayIgnoresVersion(a: State, b: State, items: seq<RolloutItem>)
    requires Same(a, b)
    ensures Same(ReplayAll(a, items), ReplayAll(b, items))
    decreases |items|
  {
    if items != [] {
      ReplayIgnoresVersion(Replay(a, items[0]), Replay(b, items[0]), items[1..]);
    }
  }

  function ResponseItems(messages: seq<Message>): seq<RolloutItem> {
    if messages == [] then [] else [ResponseItem(messages[0])] + ResponseItems(messages[1..])
  }

  lemma {:induction false} ReplayMessages(s: State, messages: seq<Message>)
    ensures Same(ReplayAll(s, ResponseItems(messages)), s.(items := s.items + messages))
    decreases |messages|
  {
    if messages == [] {
      assert s.items + messages == s.items;
    } else {
      var next := Recorded(s, [messages[0]]);
      ReplayMessages(next, messages[1..]);
      Regroup(s.items, [messages[0]], messages[1..]);
      assert [messages[0]] + messages[1..] == messages;
      assert ResponseItems(messages)[1..] == ResponseItems(messages[1..]);
    }
  }

  /** A compaction with a replacement history makes everything before it in the rollout irrelevant. */
  lemma CompactionIsACut(prefix: seq<RolloutItem>, replacement: seq<Message>, suffix: seq<RolloutItem>)
    ensures var cut := [Compacted(Some(replacement))] + suffix;
            Same(ReplayAll(EMPTY, prefix + cut), ReplayAll(EMPTY, cut))
  {
    var compacted := Compacted(Some(replacement));
    var cut := [compacted] + suffix;
    ReplayConcat(EMPTY, prefix, cut);
    assert cut[1..] == suffix;
    ReplayIgnoresVersion(Replay(ReplayAll(EMPTY, prefix), compacted), Replay(EMPTY, compacted), suffix);
  }

  predicate Bumps(item: RolloutItem) {
    item.ResponseItem? || (item.Compacted? && item.replacement.Some?)
  }

  function CountBumps(items: seq<RolloutItem>): nat {
    if items == [] then 0 else (if Bumps(items[0]) then 1 else 0) + CountBumps(items[1..])
  }

  /** Replaying moves the version on once for each recorded message and each replaced history, up to the largest 64-bit
    * number, where it stays. */
  lemma {:induction false} VersionCounts(s: State, items: seq<RolloutItem>)
    requires s.historyVersion <= 0xFFFF_FFFF_FFFF_FFFF
    ensures var moved := s.historyVersion + CountBumps(items);
            ReplayAll(s, items).historyVersion ==
            if moved <= 0xFFFF_FFFF_FFFF_FFFF then moved else 0xFFFF_FFFF_FFFF_FFFF
    decreases |items|
  {
    if items != [] {
      VersionCounts(Replay(s, items[0]), items[1..]);
    }
  }

  predicate DropsTokens(item: RolloutItem) {
    item.TokenCount? || (item.Compacted? && item.replacement.Some?)
  }

  predicate DropsReference(item: RolloutItem) {
    item.TurnContextItem? || (item.Compacted? && item.replacement.Some?)
  }

  lemma {:induction false} ReplayLast(s: State, items: seq<RolloutItem>, last: RolloutItem)
    ensures ReplayAll(s, items + [last]) == Replay(ReplayAll(s, items), last)
  {
    ReplayConcat(s, items, [last]);
    assert [last][1..] == [];
    hide Replay;
  }

  /** The token counts of a rebuild are the last ones in the rollout, and its reference is the last context in it,
    * unless a later compaction replaced the history. */
  lemma {:induction false} LastOnesHold(items: seq<RolloutItem>)
    ensures forall info :: ReplayAll(EMPTY, items).tokenInfo == Some(info) <==>
              exists k | 0 <= k < |items| ::
                items[k] == TokenCount(Some(info)) && forall j | k < j < |items| :: !DropsTokens(items[j])
    ensures forall context :: ReplayAll(EMPTY, items).reference == Some(context) <==>
              exists k | 0 <= k < |items| ::
                items[k] == TurnContextItem(context) && forall j | k < j < |items| :: !DropsReference(items[j])
  {
    if items != [] {
      var front, last := items[..|items| - 1], items[|items| - 1];
      assert items == front + [last];
      LastOnesHold(front);
      ReplayLast(EMPTY, front, last);
      hide ReplayAll;
    }
  }
}
