/** The runtime loader as a protocol of atomic steps: restores and runtime operations passing the workspace gate, and
  * callers loading and removing thread runtimes, in any interleaving.
  *
  * Assumed of code outside the loader: a turn becomes active only on a runtime that has been installed and only while a
  * gate permit for the runtime's workspace is held, and a runtime's workspace does not change.
  */
module RuntimeLoader {
  import opened WorkspaceGate
  import opened Wrappers

  type ThreadId = string
  type Runtime = nat
  type GuardId = nat
  type CallId = nat

  /** A restore guard is claimed, then scans a snapshot of the loaded runtimes, then is granted to the caller. */
  datatype RestorePhase = Claimed | Scanning(unchecked: set<Runtime>) | Granted
  datatype RestoreGuard = RestoreGuard(root: Path, phase: RestorePhase)

  /** Where a call of `ensure_runtime_loaded` stands: it missed once, holds the load lock of its thread, has missed
    * again under the lock, or has spawned a runtime it has not installed. */
  datatype LoadPhase = MissedOnce | Locked | MissedTwice | Spawned(runtime: Runtime)
  datatype Load = Load(thread: ThreadId, requested: Option<Path>, phase: LoadPhase)

  /** What happens to the loaded map, and how a call that asked for a thread, perhaps in a given workspace, is
    * answered. */
  datatype Event =
    | Installed(thread: ThreadId, runtime: Runtime)
    | Removed(thread: ThreadId, runtime: Runtime)
    | Returned(thread: ThreadId, runtime: Runtime, call: CallId, requested: Option<Path>)
    | Refused(thread: ThreadId, runtime: Runtime, call: CallId, requested: Option<Path>)

  datatype State = State(
    gate: GateState,
    opGuards: map<GuardId, Path>,
    restoreGuards: map<GuardId, RestoreGuard>,
    loaded: map<ThreadId, Runtime>,
    loads: map<CallId, Load>,
    lockHolders: map<ThreadId, CallId>,
    roots: map<Runtime, Path>,
    installed: set<Runtime>,
    active: set<Runtime>,
    log: seq<Event>)

  const INITIAL := State(GateState({}, map[]), map[], map[], map[], map[], map[], map[], {}, {}, [])

  datatype GuardAction =
    | BeginOp(guard: GuardId, root: Path)
    | DropOp(guard: GuardId)
    | ClaimRestore(guard: GuardId, root: Path)
    | Snapshot(guard: GuardId)
    | CheckRuntime(guard: GuardId, runtime: Runtime)
    | GrantRestore(guard: GuardId)
    | DropRestore(guard: GuardId)

  datatype LoadAction =
    | Check(call: CallId, thread: ThreadId, requested: Option<Path>)
    | AcquireLock(call: CallId)
    | Recheck(call: CallId)
    | Spawn(call: CallId, runtime: Runtime, root: Path)
    | SpawnFails(call: CallId)
    | Install(call: CallId)
    | ShutdownAndRemove(thread: ThreadId)

  datatype Action =
    | Guarding(guarding: GuardAction)
    | Loading(loading: LoadAction)
    | StartTurn(runtime: Runtime, permit: GuardId)
    | EndTurn(runtime: Runtime)

  // ---------- Steps ----------

  function DroppedRestore(s: State, guard: GuardId): State
    requires guard in s.restoreGuards
  {
    s.(gate := s.gate.Unclaimed(s.restoreGuards[guard].root), restoreGuards := s.restoreGuards - {guard})
  }

  /** A call that found a runtime returns it unless it asked for another workspace; either way the call is over. */
  function FoundRuntime(s: State, call: CallId, thread: ThreadId, requested: Option<Path>): State
    requires thread in s.loaded
  {
    var runtime := s.loaded[thread];
    var answer := if requested.Some? && runtime in s.roots && requested.value != s.roots[runtime]
                  then Refused(thread, runtime, call, requested)
                  else Returned(thread, runtime, call, requested);
    s.(log := s.log + [answer])
  }

  /** The call ends and gives its load lock back. */
  function EndedLoad(s: State, call: CallId): State
    requires call in s.loads
  {
    s.(loads := s.loads - {call}, lockHolders := s.lockHolders - {s.loads[call].thread})
  }

  /** The state after an action, `None` when the action cannot happen. */
  function Guarded(s: State, action: GuardAction): Option<State> {
    match action
    case BeginOp(guard, root) =>
      if guard in s.opGuards then None
      else
        (match s.gate.Entered(root)
         case Err(_) => None
         case Ok(gate) => Some(s.(gate := gate, opGuards := s.opGuards[guard := root])))
    case DropOp(guard) =>
      if guard !in s.opGuards then None
      else Some(s.(gate := s.gate.Left(s.opGuards[guard]), opGuards := s.opGuards - {guard}))
    case ClaimRestore(guard, root) =>
      if guard in s.restoreGuards then None
      else
        (match s.gate.Claimed(root)
         case Err(_) => None
         case Ok(gate) =>
           Some(s.(gate := gate, restoreGuards := s.restoreGuards[guard := RestoreGuard(root, RestorePhase.Claimed)])))
    case Snapshot(guard) =>
      if guard !in s.restoreGuards || !s.restoreGuards[guard].phase.Claimed? then None
      else
        var scanning := s.restoreGuards[guard].(phase := Scanning(s.loaded.Values));
        Some(s.(restoreGuards := s.restoreGuards[guard := scanning]))
    case CheckRuntime(guard, runtime) =>
      if guard !in s.restoreGuards || runtime !in s.roots then None
      else
        var own := s.restoreGuards[guard];
        if !own.phase.Scanning? || runtime !in own.phase.unchecked then None
        else if s.roots[runtime] == own.root && runtime in s.active then Some(DroppedRestore(s, guard))
        else
          var scanning := own.(phase := Scanning(own.phase.unchecked - {runtime}));
          Some(s.(restoreGuards := s.restoreGuards[guard := scanning]))
    case GrantRestore(guard) =>
      if guard !in s.restoreGuards || s.restoreGuards[guard].phase != Scanning({}) then None
      else Some(s.(restoreGuards := s.restoreGuards[guard := s.restoreGuards[guard].(phase := Granted)]))
    case DropRestore(guard) =>
      if guard !in s.restoreGuards then None else Some(DroppedRestore(s, guard))
  }

  function Loaded(s: State, action: LoadAction): Option<State> {
    match action
    case Check(call, thread, requested) =>
      if call in s.loads then None
      else if thread in s.loaded then Some(FoundRuntime(s, call, thread, requested))
      else Some(s.(loads := s.loads[call := Load(thread, requested, MissedOnce)]))
    case AcquireLock(call) =>
      if call !in s.loads || !s.loads[call].phase.MissedOnce? || s.loads[call].thread in s.lockHolders then None
      else Some(s.(loads := s.loads[call := s.loads[call].(phase := Locked)],
                   lockHolders := s.lockHolders[s.loads[call].thread := call]))
    case Recheck(call) =>
      if call !in s.loads || !s.loads[call].phase.Locked? then None
      else
        var thread := s.loads[call].thread;
        if thread in s.loaded then Some(EndedLoad(FoundRuntime(s, call, thread, s.loads[call].requested), call))
        else Some(s.(loads := s.loads[call := s.loads[call].(phase := MissedTwice)]))
    case Spawn(call, runtime, root) =>
      if call !in s.loads || !s.loads[call].phase.MissedTwice? || runtime in s.roots then None
      else Some(s.(loads := s.loads[call := s.loads[call].(phase := Spawned(runtime))],
                   roots := s.roots[runtime := root]))
    case SpawnFails(call) =>
      if call !in s.loads || !s.loads[call].phase.MissedTwice? then None
      else Some(EndedLoad(s, call))
    case Install(call) =>
      if call !in s.loads || !s.loads[call].phase.Spawned? then None
      else
        var thread, runtime, requested := s.loads[call].thread, s.loads[call].phase.runtime, s.loads[call].requested;
        Some(EndedLoad(s, call).(
               loaded := s.loaded[thread := runtime],
               installed := s.installed + {runtime},
               log := s.log + [Installed(thread, runtime), Returned(thread, runtime, call, requested)]))
    case ShutdownAndRemove(thread) =>
      if thread !in s.loaded then Some(s)
      else Some(s.(loaded := s.loaded - {thread}, log := s.log + [Removed(thread, s.loaded[thread])]))
  }

  function Apply(s: State, action: Action): Option<State> {
    match action
    case Guarding(guarding) => Guarded(s, guarding)
    case Loading(loading) => Loaded(s, loading)
    case StartTurn(runtime, permit) =>
      if runtime !in s.installed || runtime !in s.roots || permit !in s.opGuards
         || s.opGuards[permit] != s.roots[runtime] then None
      else Some(s.(active := s.active + {runtime}))
    case EndTurn(runtime) => Some(s.(active := s.active - {runtime}))
  }

  /** The state after a run, `None` when some action of it cannot happen. */
  function Run(s: State, actions: seq<Action>): Option<State>
    decreases |actions|
  {
    if actions == [] then Some(s)
    else match Apply(s, actions[0])
      case None => None
      case Some(next) => Run(next, actions[1..])
  }

  // ---------- The gate ----------

  ghost function OpGuardsAt(s: State, root: Path): set<GuardId> {
    set guard | guard in s.opGuards && s.opGuards[guard] == root
  }

  /** The count of a workspace is the number of its live operation guards; a workspace is marked as restoring exactly
    * while its one restore guard lives; and the two never hold together. */
  ghost predicate GateInv(s: State) {
    && (forall root :: s.gate.Count(root) == |OpGuardsAt(s, root)|)
    && (forall root <- s.gate.runtimeOps :: s.gate.runtimeOps[root] > 0)
    && (forall guard <- s.restoreGuards :: s.restoreGuards[guard].root in s.gate.restoring)
    && (forall root <- s.gate.restoring :: exists guard <- s.restoreGuards :: s.restoreGuards[guard].root == root)
    && (forall a <- s.restoreGuards, b <- s.restoreGuards ::
          s.restoreGuards[a].root == s.restoreGuards[b].root ==> a == b)
    && s.gate.restoring !! s.gate.runtimeOps.Keys
  }

  /** One more guard for a workspace, none for the others. */
  lemma OneMoreGuard(s: State, t: State, guard: GuardId, root: Path, r: Path)
    requires guard !in s.opGuards && t.opGuards == s.opGuards[guard := root]
    ensures guard !in OpGuardsAt(s, r)
    ensures OpGuardsAt(t, r) == if r == root then OpGuardsAt(s, r) + {guard} else OpGuardsAt(s, r)
  {
  }

  lemma BeginOpKeepsGate(s: State, guard: GuardId, root: Path)
    requires GateInv(s) && Guarded(s, BeginOp(guard, root)).Some?
    ensures GateInv(Guarded(s, BeginOp(guard, root)).value)
  {
    var t := Guarded(s, BeginOp(guard, root)).value;
    hide OpGuardsAt;
    forall r ensures t.gate.Count(r) == |OpGuardsAt(t, r)| {
      OneMoreGuard(s, t, guard, root, r);
    }
  }

  lemma DropOpKeepsGate(s: State, guard: GuardId)
    requires GateInv(s) && Guarded(s, DropOp(guard)).Some?
    ensures GateInv(Guarded(s, DropOp(guard)).value)
  {
    var t, root := Guarded(s, DropOp(guard)).value, s.opGuards[guard];
    assert t.opGuards[guard := root] == s.opGuards;
    assert root in s.gate.runtimeOps by {
      assert guard in OpGuardsAt(s, root);
    }
    hide OpGuardsAt;
    forall r ensures t.gate.Count(r) == |OpGuardsAt(t, r)| {
      OneMoreGuard(t, s, guard, root, r);
    }
  }

  lemma SameOpGuards(s: State, t: State)
    requires s.opGuards == t.opGuards
    ensures forall root :: OpGuardsAt(s, root) == OpGuardsAt(t, root)
  {
  }

  lemma ClaimRestoreKeepsGate(s: State, guard: GuardId, root: Path)
    requires GateInv(s) && Guarded(s, ClaimRestore(guard, root)).Some?
    ensures GateInv(Guarded(s, ClaimRestore(guard, root)).value)
  {
    var t := Guarded(s, ClaimRestore(guard, root)).value;
    SameOpGuards(s, t);
    forall r <- t.gate.restoring ensures exists g <- t.restoreGuards :: t.restoreGuards[g].root == r {
      if r == root {
        assert t.restoreGuards[guard].root == r;
      } else {
        var g :| g in s.restoreGuards && s.restoreGuards[g].root == r;
        assert t.restoreGuards[g].root == r;
      }
    }
  }

  lemma DroppedRestoreKeepsGate(s: State, guard: GuardId)
    requires GateInv(s) && guard in s.restoreGuards
    ensures GateInv(DroppedRestore(s, guard))
  {
    var t := DroppedRestore(s, guard);
    SameOpGuards(s, t);
    forall r <- t.gate.restoring ensures exists g <- t.restoreGuards :: t.restoreGuards[g].root == r {
      var g :| g in s.restoreGuards && s.restoreGuards[g].root == r;
      assert t.restoreGuards[g].root == r;
    }
  }

  /** The actions that leave the gate, the operation guards and the workspaces of the restore guards alone. */
  lemma UntouchedGate(s: State, t: State)
    requires GateInv(s)
    requires t.gate == s.gate && t.opGuards == s.opGuards && t.restoreGuards.Keys == s.restoreGuards.Keys
    requires forall guard <- s.restoreGuards :: t.restoreGuards[guard].root == s.restoreGuards[guard].root
    ensures GateInv(t)
  {
    SameOpGuards(s, t);
    forall r <- t.gate.restoring ensures exists g <- t.restoreGuards :: t.restoreGuards[g].root == r {
      var g :| g in s.restoreGuards && s.restoreGuards[g].root == r;
      assert t.restoreGuards[g].root == r;
    }
  }

  lemma GuardedKeepsGate(s: State, action: GuardAction)
    requires GateInv(s) && Guarded(s, action).Some?
    ensures GateInv(Guarded(s, action).value)
  {
    hide GateInv;
    var t := Guarded(s, action).value;
    match action
    case BeginOp(guard, root) => BeginOpKeepsGate(s, guard, root);
    case DropOp(guard) => DropOpKeepsGate(s, guard);
    case ClaimRestore(guard, root) => ClaimRestoreKeepsGate(s, guard, root);
    case DropRestore(guard) => DroppedRestoreKeepsGate(s, guard);
    case CheckRuntime(guard, runtime) =>
      if t == DroppedRestore(s, guard) {
        DroppedRestoreKeepsGate(s, guard);
      } else {
        UntouchedGate(s, t);
      }
    case _ => UntouchedGate(s, t);
  }

  lemma GuardedFrame(s: State, action: GuardAction)
    requires Guarded(s, action).Some?
    ensures var t := Guarded(s, action).value;
            && t.loaded == s.loaded && t.loads == s.loads && t.lockHolders == s.lockHolders && t.roots == s.roots
            && t.installed == s.installed && t.active == s.active && t.log == s.log
  {
  }

  lemma LoadedFrame(s: State, action: LoadAction)
    requires Loaded(s, action).Some?
    ensures var t := Loaded(s, action).value;
            && t.gate == s.gate && t.opGuards == s.opGuards && t.restoreGuards == s.restoreGuards
            && t.active == s.active
  {
    hide FoundRuntime;
    match action
    case Check(call, thread, requested) => if thread in s.loaded { FoundFrame(s, call, thread, requested); }
    case Recheck(call) =>
      if s.loads[call].thread in s.loaded {
        FoundFrame(s, call, s.loads[call].thread, s.loads[call].requested);
      }
    case _ =>
  }

  lemma GateInvHolds(s: State, action: Action)
    requires GateInv(s) && Apply(s, action).Some?
    ensures GateInv(Apply(s, action).value)
  {
    hide GateInv, Guarded, Loaded;
    match action
    case Guarding(guarding) => GuardedKeepsGate(s, guarding);
    case Loading(loading) => LoadedFrame(s, loading); UntouchedGate(s, Apply(s, action).value);
    case _ => UntouchedGate(s, Apply(s, action).value);
  }

  // ---------- Loading ----------

  /** A load lock is held by the one call that is past it. */
  ghost predicate LockInv(s: State) {
    && (forall call <- s.loads | !s.loads[call].phase.MissedOnce? ::
          s.loads[call].thread in s.lockHolders && s.lockHolders[s.loads[call].thread] == call)
    && (forall thread <- s.lockHolders ::
          && s.lockHolders[thread] in s.loads && s.loads[s.lockHolders[thread]].thread == thread
          && !s.loads[s.lockHolders[thread]].phase.MissedOnce?)
  }

  /** A thread whose load has missed under the lock is not loaded. */
  ghost predicate MissInv(s: State) {
    forall call <- s.loads | s.loads[call].phase.MissedTwice? || s.loads[call].phase.Spawned? ::
      s.loads[call].thread !in s.loaded
  }

  /** A spawned runtime belongs to one call until it is installed, and only installed runtimes have active turns. */
  ghost predicate RuntimeInv(s: State) {
    && s.loaded.Values <= s.installed <= s.roots.Keys
    && s.active <= s.installed
    && (forall call <- s.loads | s.loads[call].phase.Spawned? ::
          s.loads[call].phase.runtime in s.roots && s.loads[call].phase.runtime !in s.installed)
    && (forall a <- s.loads, b <- s.loads | s.loads[a].phase.Spawned? && s.loads[b].phase.Spawned? ::
          s.loads[a].phase.runtime == s.loads[b].phase.runtime ==> a == b)
  }

  lemma FoundFrame(s: State, call: CallId, thread: ThreadId, requested: Option<Path>)
    requires thread in s.loaded
    ensures var t := FoundRuntime(s, call, thread, requested);
            && t.loaded == s.loaded && t.loads == s.loads && t.lockHolders == s.lockHolders && t.roots == s.roots
            && t.installed == s.installed && t.active == s.active && t.gate == s.gate && t.opGuards == s.opGuards
            && t.restoreGuards == s.restoreGuards
  {
  }

  /** How a load action changes the calls: it starts one, moves one on, or ends one that holds its lock. */
  ghost predicate LoadStarted(s: State, t: State, call: CallId) {
    && call !in s.loads && t.lockHolders == s.lockHolders
    && (t.loads == s.loads || (t.loads.Keys == s.loads.Keys + {call} && t.loads == s.loads[call := t.loads[call]]
                               && t.loads[call].phase.MissedOnce?))
  }

  ghost predicate LoadMoved(s: State, t: State, call: CallId) {
    && call in s.loads && call in t.loads && t.loads == s.loads[call := t.loads[call]]
    && t.loads[call].thread == s.loads[call].thread && !t.loads[call].phase.MissedOnce?
    && (if s.loads[call].phase.MissedOnce?
        then s.loads[call].thread !in s.lockHolders && t.lockHolders == s.lockHolders[s.loads[call].thread := call]
        else t.lockHolders == s.lockHolders)
  }

  ghost predicate LoadEnded(s: State, t: State, call: CallId) {
    && call in s.loads && !s.loads[call].phase.MissedOnce?
    && t.loads == s.loads - {call} && t.lockHolders == s.lockHolders - {s.loads[call].thread}
  }

  ghost predicate LoadsChange(s: State, t: State, action: LoadAction) {
    match action
    case ShutdownAndRemove(_) => t.loads == s.loads && t.lockHolders == s.lockHolders
    case Check(call, _, _) => LoadStarted(s, t, call)
    case AcquireLock(call) => LoadMoved(s, t, call)
    case Recheck(call) => LoadMoved(s, t, call) || LoadEnded(s, t, call)
    case Spawn(call, _, _) => LoadMoved(s, t, call)
    case SpawnFails(call) => LoadEnded(s, t, call)
    case Install(call) => LoadEnded(s, t, call)
  }

  lemma LoadedChanges(s: State, action: LoadAction)
    requires Loaded(s, action).Some?
    ensures LoadsChange(s, Loaded(s, action).value, action)
  {
    hide FoundRuntime;
    match action
    case Check(call, thread, requested) => if thread in s.loaded { FoundFrame(s, call, thread, requested); }
    case Recheck(call) =>
      if s.loads[call].thread in s.loaded {
        FoundFrame(s, call, s.loads[call].thread, s.loads[call].requested);
      }
    case _ =>
  }

  lemma MovedKeepsLocks(s: State, t: State, call: CallId)
    requires LockInv(s) && (LoadMoved(s, t, call) || LoadStarted(s, t, call))
    ensures LockInv(t)
  {
  }

  lemma EndedKeepsLocks(s: State, t: State, call: CallId)
    requires LockInv(s) && LoadEnded(s, t, call)
    ensures LockInv(t)
  {
  }

  lemma LoadedKeepsLocks(s: State, action: LoadAction)
    requires LockInv(s) && Loaded(s, action).Some?
    ensures LockInv(Loaded(s, action).value)
  {
    LoadedChanges(s, action);
    var t := Loaded(s, action).value;
    hide Loaded, LoadMoved, LoadStarted, LoadEnded;
    match action
    case ShutdownAndRemove(_) =>
    case Check(call, _, _) => hide LockInv; MovedKeepsLocks(s, t, call);
    case AcquireLock(call) => hide LockInv; MovedKeepsLocks(s, t, call);
    case Spawn(call, _, _) => hide LockInv; MovedKeepsLocks(s, t, call);
    case Recheck(call) =>
      hide LockInv;
      if LoadMoved(s, t, call) {
        MovedKeepsLocks(s, t, call);
      } else {
        EndedKeepsLocks(s, t, call);
      }
    case SpawnFails(call) => hide LockInv; EndedKeepsLocks(s, t, call);
    case Install(call) => hide LockInv; EndedKeepsLocks(s, t, call);
  }

  lemma LoadedKeepsMisses(s: State, action: LoadAction)
    requires LockInv(s) && MissInv(s) && Loaded(s, action).Some?
    ensures MissInv(Loaded(s, action).value)
  {
    hide FoundRuntime;
    match action
    case Check(call, thread, requested) => if thread in s.loaded { FoundFrame(s, call, thread, requested); }
    case Recheck(call) =>
      if s.loads[call].thread in s.loaded {
        FoundFrame(s, call, s.loads[call].thread, s.loads[call].requested);
      }
    case _ =>
  }

  lemma SpawnKeepsRuntimes(s: State, call: CallId, runtime: Runtime, root: Path)
    requires RuntimeInv(s) && Loaded(s, Spawn(call, runtime, root)).Some?
    ensures RuntimeInv(Loaded(s, Spawn(call, runtime, root)).value)
  {
  }

  lemma InstallKeepsRuntimes(s: State, call: CallId)
    requires RuntimeInv(s) && Loaded(s, Install(call)).Some?
    ensures RuntimeInv(Loaded(s, Install(call)).value)
  {
  }

  lemma LoadedKeepsRuntimes(s: State, action: LoadAction)
    requires RuntimeInv(s) && Loaded(s, action).Some?
    ensures RuntimeInv(Loaded(s, action).value)
  {
    match action
    case Spawn(call, runtime, root) => hide RuntimeInv, Loaded; SpawnKeepsRuntimes(s, call, runtime, root);
    case Install(call) => hide RuntimeInv, Loaded; InstallKeepsRuntimes(s, call);
    case _ => OtherLoadsKeepRuntimes(s, action);
  }

  /** Every other load action spawns and installs nothing. */
  ghost predicate NothingNew(s: State, t: State) {
    && t.loaded.Values <= s.loaded.Values && t.installed == s.installed && t.roots == s.roots && t.active == s.active
    && forall call <- t.loads | t.loads[call].phase.Spawned? :: call in s.loads && s.loads[call] == t.loads[call]
  }

  lemma OtherLoadsAddNothing(s: State, action: LoadAction)
    requires Loaded(s, action).Some? && !action.Spawn? && !action.Install?
    ensures NothingNew(s, Loaded(s, action).value)
  {
    hide FoundRuntime;
    match action
    case Check(call, thread, requested) => if thread in s.loaded { FoundFrame(s, call, thread, requested); }
    case Recheck(call) =>
      if s.loads[call].thread in s.loaded {
        FoundFrame(s, call, s.loads[call].thread, s.loads[call].requested);
      }
    case _ =>
  }

  lemma OtherLoadsKeepRuntimes(s: State, action: LoadAction)
    requires RuntimeInv(s) && Loaded(s, action).Some? && !action.Spawn? && !action.Install?
    ensures RuntimeInv(Loaded(s, action).value)
  {
    OtherLoadsAddNothing(s, action);
    hide Loaded;
  }

  // ---------- The log ----------

  function Recorded(before: map<ThreadId, Runtime>, event: Event): map<ThreadId, Runtime> {
    match event
    case Installed(thread, runtime) => before[thread := runtime]
    case Removed(thread, _) => before - {thread}
    case _ => before
  }

  /** An installation finds its thread unmapped; a removal and an answer name the runtime mapped just then. */
  predicate Fits(before: map<ThreadId, Runtime>, event: Event) {
    if event.Installed? then event.thread !in before
    else event.thread in before && before[event.thread] == event.runtime
  }

  /** The map that the installations and removals of a log leave behind. */
  function Mapped(log: seq<Event>): map<ThreadId, Runtime> {
    if log == [] then map[] else Recorded(Mapped(log[..|log| - 1]), log[|log| - 1])
  }

  predicate Consistent(log: seq<Event>) {
    log != [] ==> Consistent(log[..|log| - 1]) && Fits(Mapped(log[..|log| - 1]), log[|log| - 1])
  }

  ghost predicate LogInv(s: State) {
    Consistent(s.log) && Mapped(s.log) == s.loaded
  }

  lemma LogGrows(log: seq<Event>, event: Event)
    ensures Mapped(log + [event]) == Recorded(Mapped(log), event)
    ensures Consistent(log + [event]) <==> Consistent(log) && Fits(Mapped(log), event)
  {
    assert (log + [event])[..|log|] == log;
  }

  lemma FoundKeepsLog(s: State, call: CallId, thread: ThreadId, requested: Option<Path>)
    requires LogInv(s) && thread in s.loaded
    ensures LogInv(FoundRuntime(s, call, thread, requested))
  {
    LogGrows(s.log, Returned(thread, s.loaded[thread], call, requested));
    LogGrows(s.log, Refused(thread, s.loaded[thread], call, requested));
  }

  lemma LoadedKeepsLog(s: State, action: LoadAction)
    requires LogInv(s) && MissInv(s) && Loaded(s, action).Some?
    ensures LogInv(Loaded(s, action).value)
  {
    match action
    case Check(call, thread, requested) =>
      if thread in s.loaded {
        FoundKeepsLog(s, call, thread, requested);
      }
    case Recheck(call) =>
      if s.loads[call].thread in s.loaded {
        FoundKeepsLog(s, call, s.loads[call].thread, s.loads[call].requested);
      }
    case Install(call) =>
      var installed := Installed(s.loads[call].thread, s.loads[call].phase.runtime);
      var returned := Returned(installed.thread, installed.runtime, call, s.loads[call].requested);
      LogGrows(s.log, installed);
      LogGrows(s.log + [installed], returned);
      assert s.log + [installed, returned] == s.log + [installed] + [returned];
    case ShutdownAndRemove(thread) =>
      if thread in s.loaded {
        LogGrows(s.log, Removed(thread, s.loaded[thread]));
      }
    case _ =>
  }

  // ---------- Restores and turns ----------

  ghost predicate Busy(s: State, root: Path, runtime: Runtime) {
    runtime in s.active && runtime in s.roots && s.roots[runtime] == root
  }

  /** During a scan every loaded runtime of the workspace with an active turn is still unchecked, and once the
    * restore is granted there is none. */
  ghost predicate RestoreInv(s: State) {
    forall guard <- s.restoreGuards ::
      var own := s.restoreGuards[guard];
      && (own.phase.Scanning? ==>
            forall runtime <- s.loaded.Values :: Busy(s, own.root, runtime) ==> runtime in own.phase.unchecked)
      && (own.phase.Granted? ==> forall runtime <- s.loaded.Values :: !Busy(s, own.root, runtime))
  }

  lemma GuardedKeepsRestores(s: State, action: GuardAction)
    requires RestoreInv(s) && Guarded(s, action).Some?
    ensures RestoreInv(Guarded(s, action).value)
  {
    GuardedFrame(s, action);
  }

  lemma LoadedKeepsRestores(s: State, action: LoadAction)
    requires RestoreInv(s) && RuntimeInv(s) && Loaded(s, action).Some?
    ensures RestoreInv(Loaded(s, action).value)
  {
    LoadedFrame(s, action);
    var t := Loaded(s, action).value;
    forall runtime <- t.loaded.Values, root | Busy(t, root, runtime)
      ensures runtime in s.loaded.Values && Busy(s, root, runtime)
    {
    }
  }

  lemma StartTurnKeepsRestores(s: State, runtime: Runtime, permit: GuardId)
    requires GateInv(s) && RestoreInv(s) && Apply(s, StartTurn(runtime, permit)).Some?
    ensures RestoreInv(Apply(s, StartTurn(runtime, permit)).value)
  {
    var root := s.roots[runtime];
    assert permit in OpGuardsAt(s, root);
    assert root !in s.gate.restoring;
  }

  // ---------- Every run ----------

  ghost predicate Inv(s: State) {
    GateInv(s) && LockInv(s) && MissInv(s) && RuntimeInv(s) && LogInv(s) && RestoreInv(s)
  }

  lemma InvHolds(s: State, action: Action)
    requires Inv(s) && Apply(s, action).Some?
    ensures Inv(Apply(s, action).value)
  {
    GateInvHolds(s, action);
    match action
    case Guarding(guarding) =>
      GuardedFrame(s, guarding);
      GuardedKeepsRestores(s, guarding);
    case Loading(loading) =>
      LoadedKeepsLocks(s, loading);
      LoadedKeepsMisses(s, loading);
      LoadedKeepsRuntimes(s, loading);
      LoadedKeepsLog(s, loading);
      LoadedKeepsRestores(s, loading);
    case StartTurn(runtime, permit) => StartTurnKeepsRestores(s, runtime, permit);
    case EndTurn(_) =>
  }

  lemma {:induction false} InvAlways(s: State, actions: seq<Action>)
    requires Inv(s) && Run(s, actions).Some?
    ensures Inv(Run(s, actions).value)
    decreases |actions|
  {
    hide Inv, Apply;
    if actions != [] {
      InvHolds(s, actions[0]);
      InvAlways(Apply(s, actions[0]).value, actions[1..]);
    }
  }

  /** In every interleaving: no workspace is being restored while it has runtime operations, the counts are those of the
    * live guards, and while a granted restore guard lives no loaded runtime of its workspace has an active turn. */
  lemma RestoreIsExclusive(actions: seq<Action>)
    requires Run(INITIAL, actions).Some?
    ensures var s := Run(INITIAL, actions).value;
            && (forall root :: !(root in s.gate.restoring && s.gate.Count(root) > 0))
            && (forall root :: s.gate.Count(root) == |OpGuardsAt(s, root)|)
            && (forall guard <- s.restoreGuards, thread <- s.loaded |
                  s.restoreGuards[guard].phase.Granted? :: !Busy(s, s.restoreGuards[guard].root, s.loaded[thread]))
  {
    assert forall root :: OpGuardsAt(INITIAL, root) == {};
    InvAlways(INITIAL, actions);
    var s := Run(INITIAL, actions).value;
    assert forall thread <- s.loaded :: s.loaded[thread] in s.loaded.Values;
  }

  /** In every interleaving of loads and removals the log is consistent and describes the loaded map, and an
    * installation never overwrites an entry. */
  lemma SingleLoad(actions: seq<Action>)
    requires Run(INITIAL, actions).Some?
    ensures var s := Run(INITIAL, actions).value;
            && Consistent(s.log) && Mapped(s.log) == s.loaded
            && (forall call | Loaded(s, Install(call)).Some? :: s.loads[call].thread !in s.loaded)
  {
    assert forall root :: OpGuardsAt(INITIAL, root) == {};
    InvAlways(INITIAL, actions);
  }

  // ---------- Answers ----------

  /** The thread and workspace a call last asked for. */
  function Asked(actions: seq<Action>, call: CallId): Option<(ThreadId, Option<Path>)> {
    if actions == [] then None
    else
      var last := actions[|actions| - 1];
      if last.Loading? && last.loading.Check? && last.loading.call == call
      then Some((last.loading.thread, last.loading.requested))
      else Asked(actions[..|actions| - 1], call)
  }

  /** The runtime was spawned in the workspace. */
  ghost predicate SpawnedIn(actions: seq<Action>, runtime: Runtime, root: Path) {
    exists call :: Loading(Spawn(call, runtime, root)) in actions
  }

  /** A call in progress is after what it asked for, and a runtime's workspace is the one it was spawned in. */
  ghost predicate AskInv(actions: seq<Action>, s: State) {
    && (forall call <- s.loads :: Asked(actions, call) == Some((s.loads[call].thread, s.loads[call].requested)))
    && (forall runtime, root :: SpawnedIn(actions, runtime, root) <==> runtime in s.roots && s.roots[runtime] == root)
  }

  lemma SpawnsGrow(actions: seq<Action>, last: Action)
    ensures forall runtime, root ::
              SpawnedIn(actions + [last], runtime, root) <==>
              SpawnedIn(actions, runtime, root)
              || (last.Loading? && last.loading.Spawn? && last.loading.runtime == runtime && last.loading.root == root)
  {
    forall runtime, root, call
      ensures Loading(Spawn(call, runtime, root)) in actions + [last] <==>
              Loading(Spawn(call, runtime, root)) in actions || last == Loading(Spawn(call, runtime, root))
    {
    }
    forall runtime, root
      | last.Loading? && last.loading.Spawn? && last.loading.runtime == runtime && last.loading.root == root
      ensures SpawnedIn(actions + [last], runtime, root)
    {
      assert Loading(Spawn(last.loading.call, runtime, root)) in actions + [last];
    }
  }

  lemma LoadsAndRoots(s: State, action: LoadAction)
    requires Loaded(s, action).Some?
    ensures var t := Loaded(s, action).value;
            && t.roots == (if action.Spawn? then s.roots[action.runtime := action.root] else s.roots)
            && (action.Spawn? ==> action.runtime !in s.roots)
            && (forall call <- t.loads ::
                  if action.Check? && action.call == call
                  then t.loads[call].thread == action.thread && t.loads[call].requested == action.requested
                  else call in s.loads && t.loads[call].thread == s.loads[call].thread
                       && t.loads[call].requested == s.loads[call].requested)
  {
    hide FoundRuntime;
    match action
    case Check(call, thread, requested) => if thread in s.loaded { FoundFrame(s, call, thread, requested); }
    case Recheck(call) =>
      if s.loads[call].thread in s.loaded {
        FoundFrame(s, call, s.loads[call].thread, s.loads[call].requested);
      }
    case _ =>
  }

  lemma AskInvHolds(actions: seq<Action>, s: State, action: Action)
    requires AskInv(actions, s) && Apply(s, action).Some?
    ensures AskInv(actions + [action], Apply(s, action).value)
  {
    var t := Apply(s, action).value;
    SpawnsGrow(actions, action);
    assert (actions + [action])[..|actions|] == actions;
    match action
    case Guarding(guarding) => GuardedFrame(s, guarding); hide SpawnedIn, Guarded;
    case Loading(loading) => LoadsAndRoots(s, loading); hide SpawnedIn, Loaded;
    case _ => hide SpawnedIn;
  }

  lemma {:induction false} AskInvAlways(before: seq<Action>, s: State, actions: seq<Action>)
    requires AskInv(before, s) && Run(s, actions).Some?
    ensures AskInv(before + actions, Run(s, actions).value)
    decreases |actions|
  {
    hide AskInv, Apply;
    if actions == [] {
      assert before + actions == before;
    } else {
      AskInvHolds(before, s, actions[0]);
      AskInvAlways(before + [actions[0]], Apply(s, actions[0]).value, actions[1..]);
      assert before + [actions[0]] + actions[1..] == before + actions;
    }
  }

  lemma NothingAsked()
    ensures AskInv([], INITIAL)
  {
    forall runtime, root ensures !SpawnedIn([], runtime, root) {
    }
  }

  /** The one answer a step gives a call that found its thread mapped: the mapped runtime when the call asked for no
    * workspace or for the one the runtime was spawned in, and a refusal otherwise. */
  ghost predicate Answered(
    actions: seq<Action>, s: State, t: State, call: CallId, thread: ThreadId, requested: Option<Path>)
    requires thread in s.loaded
  {
    var runtime := s.loaded[thread];
    && call !in t.loads && t.loaded == s.loaded
    && t.log == s.log + [if requested.None? || SpawnedIn(actions, runtime, requested.value)
                         then Returned(thread, runtime, call, requested)
                         else Refused(thread, runtime, call, requested)]
  }

  lemma FoundIsAnswered(
    actions: seq<Action>, s: State, call: CallId, thread: ThreadId, requested: Option<Path>)
    requires AskInv(actions, s) && RuntimeInv(s) && thread in s.loaded
    ensures var t := FoundRuntime(s, call, thread, requested);
            t.log == s.log + [if requested.None? || SpawnedIn(actions, s.loaded[thread], requested.value)
                              then Returned(thread, s.loaded[thread], call, requested)
                              else Refused(thread, s.loaded[thread], call, requested)]
  {
    assert s.loaded[thread] in s.loaded.Values;
    hide SpawnedIn, Asked;
  }

  lemma CheckAnswers(actions: seq<Action>, s: State, call: CallId, thread: ThreadId, requested: Option<Path>)
    requires AskInv(actions, s) && RuntimeInv(s) && call !in s.loads
    ensures var next := Loaded(s, Check(call, thread, requested));
            && next.Some?
            && (if thread in s.loaded then Answered(actions, s, next.value, call, thread, requested)
                else call in next.value.loads && next.value.log == s.log)
  {
    hide SpawnedIn, Asked, FoundRuntime;
    if thread in s.loaded {
      FoundIsAnswered(actions, s, call, thread, requested);
      FoundFrame(s, call, thread, requested);
    }
  }

  lemma RecheckAnswers(actions: seq<Action>, s: State, call: CallId)
    requires AskInv(actions, s) && RuntimeInv(s) && Loaded(s, Recheck(call)).Some?
    ensures call in s.loads
    ensures var next, own := Loaded(s, Recheck(call)).value, s.loads[call];
            if own.thread in s.loaded then Answered(actions, s, next, call, own.thread, own.requested)
            else call in next.loads && next.log == s.log
  {
    hide SpawnedIn, Asked, FoundRuntime;
    var thread, requested := s.loads[call].thread, s.loads[call].requested;
    if thread in s.loaded {
      FoundIsAnswered(actions, s, call, thread, requested);
      FoundFrame(s, call, thread, requested);
    }
  }

  /** In every run, at both checks: a call that finds its thread mapped is answered at once, by the workspace it
    * asked for and the one the mapped runtime was spawned in; a call that does not find it goes on. */
  lemma ChecksAnswer(actions: seq<Action>, action: LoadAction)
    requires Run(INITIAL, actions).Some? && Loaded(Run(INITIAL, actions).value, action).Some?
    requires action.Check? || action.Recheck?
    ensures var s := Run(INITIAL, actions).value;
            var t := Loaded(s, action).value;
            var asked := Asked(actions + [Loading(action)], action.call);
            && asked.Some?
            && (if asked.value.0 in s.loaded
                then Answered(actions, s, t, action.call, asked.value.0, asked.value.1)
                else action.call in t.loads && t.log == s.log)
  {
    assert forall root :: OpGuardsAt(INITIAL, root) == {};
    InvAlways(INITIAL, actions);
    NothingAsked();
    AskInvAlways([], INITIAL, actions);
    assert [] + actions == actions;
    assert (actions + [Loading(action)])[..|actions|] == actions;
    var s := Run(INITIAL, actions).value;
    match action
    case Check(call, thread, requested) =>
      hide Answered, AskInv, RuntimeInv;
      CheckAnswers(actions, s, call, thread, requested);
    case Recheck(call) =>
      hide Answered, RuntimeInv, SpawnedIn;
      RecheckAnswers(actions, s, call);
  }

  // ---------- Admission ----------

  /** In every run: an operation is admitted exactly when no restore of its workspace is under way, a restore
    * exactly when there is neither another restore of the workspace nor an operation in it. */
  lemma GateAdmitsIff(actions: seq<Action>, guard: GuardId, root: Path)
    requires Run(INITIAL, actions).Some?
    ensures var s := Run(INITIAL, actions).value;
            && (guard !in s.opGuards ==>
                  (Guarded(s, BeginOp(guard, root)).Some? <==>
                   forall other <- s.restoreGuards :: s.restoreGuards[other].root != root))
            && (guard !in s.restoreGuards ==>
                  (Guarded(s, ClaimRestore(guard, root)).Some? <==>
                   && (forall other <- s.restoreGuards :: s.restoreGuards[other].root != root)
                   && OpGuardsAt(s, root) == {}))
  {
    assert forall other :: OpGuardsAt(INITIAL, other) == {};
    InvAlways(INITIAL, actions);
    hide OpGuardsAt, LockInv, MissInv, LogInv, RestoreInv, RuntimeInv, Run;
  }

  /** Checking one runtime refuses the restore exactly when it has an active turn in the workspace; otherwise the
    * scan goes on without it. A scan with nothing left is granted. */
  lemma RestoreRefusedIff(s: State, guard: GuardId, runtime: Runtime)
    requires guard in s.restoreGuards && s.restoreGuards[guard].phase.Scanning? && runtime in s.roots
    requires runtime in s.restoreGuards[guard].phase.unchecked
    ensures var own, next := s.restoreGuards[guard], Guarded(s, CheckRuntime(guard, runtime));
            && next.Some?
            && (guard !in next.value.restoreGuards <==> Busy(s, own.root, runtime))
            && (guard in next.value.restoreGuards ==>
                  next.value.restoreGuards[guard].phase == Scanning(own.phase.unchecked - {runtime}))
            && (own.phase.unchecked == {runtime} && guard in next.value.restoreGuards ==>
                  Guarded(next.value, GrantRestore(guard)).Some?)
  {
  }

  /** In a consistent log a thread's runtime is removed between any two installations for the thread. */
  lemma {:induction false} RemovedBetweenInstallations(log: seq<Event>, i: nat, j: nat)
    requires Consistent(log) && i < j < |log|
    requires log[i].Installed? && log[j].Installed? && log[i].thread == log[j].thread
    ensures exists k :: i < k < j && log[k].Removed? && log[k].thread == log[i].thread
    decreases |log|
  {
    ConsistentPrefix(log, j + 1);
    var before := log[..j];
    assert log[..j + 1][..j] == before;
    assert log[i].thread !in Mapped(before);
    StaysMapped(log, i, j);
  }

  lemma {:induction false} ConsistentPrefix(log: seq<Event>, n: nat)
    requires Consistent(log) && n <= |log|
    ensures Consistent(log[..n])
    decreases |log|
  {
    if n < |log| {
      ConsistentPrefix(log[..|log| - 1], n);
      assert log[..|log| - 1][..n] == log[..n];
    } else {
      assert log[..n] == log;
    }
  }

  lemma {:induction false} StaysMapped(log: seq<Event>, i: nat, n: nat)
    requires i < n <= |log| && log[i].Installed?
    requires log[i].thread !in Mapped(log[..n])
    ensures exists k :: i < k < n && log[k].Removed? && log[k].thread == log[i].thread
    decreases n
  {
    assert log[..n][..n - 1] == log[..n - 1];
    if i < n - 1 && !(log[n - 1].Removed? && log[n - 1].thread == log[i].thread) {
      StaysMapped(log, i, n - 1);
    }
  }
}
