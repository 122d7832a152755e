/** The workspace restore gate: a set of workspaces being restored and a count of runtime operations per workspace, both
  * under one mutex. Each method is one critical section. */
module WorkspaceGate {
  import opened Wrappers

  type Path = string

  datatype GateError = RestoreInProgress | RuntimeOpStarting

  datatype GateState = GateState(restoring: set<Path>, runtimeOps: map<Path, nat>) {
    function Count(root: Path): nat {
      if root in runtimeOps then runtimeOps[root] else 0
    }

    function Claimed(root: Path): Result<GateState, GateError> {
      if root in restoring then Err(RestoreInProgress)
      else if Count(root) > 0 then Err(RuntimeOpStarting)
      else Ok(this.(restoring := restoring + {root}))
    }

    function Unclaimed(root: Path): GateState {
      this.(restoring := restoring - {root})
    }

    function Entered(root: Path): Result<GateState, GateError> {
      if root in restoring then Err(RestoreInProgress)
      else Ok(this.(runtimeOps := runtimeOps[root := Count(root) + 1]))
    }

    /** Dropping an operation guard. The source subtracts with saturation, and an absent entry stays absent. */
    function Left(root: Path): GateState {
      if root !in runtimeOps then this
      else if runtimeOps[root] <= 1 then this.(runtimeOps := runtimeOps - {root})
      else this.(runtimeOps := runtimeOps[root := runtimeOps[root] - 1])
    }
  }

  class Gate {
    var restoring: set<Path>
    var runtimeOps: map<Path, nat>

    function View(): GateState
      reads this
    {
      GateState(restoring, runtimeOps)
    }

    constructor ()
      ensures View() == GateState({}, map[])
    {
      restoring, runtimeOps := {}, map[];
    }

    /** The critical section of `begin_workspace_restore`. */
    method ClaimRestore(root: Path) returns (r: Result<(), GateError>)
      modifies this
      ensures match old(View()).Claimed(root)
              case Ok(next) => r.Ok? && View() == next
              case Err(error) => r == Err(error) && View() == old(View())
    {
      if root in restoring {
        return Err(RestoreInProgress);
      }
      if root in runtimeOps && runtimeOps[root] > 0 {
        return Err(RuntimeOpStarting);
      }
      restoring := restoring + {root};
      return Ok(());
    }

    method DropRestoreGuard(root: Path)
      modifies this
      ensures View() == old(View()).Unclaimed(root)
    {
      restoring := restoring - {root};
    }

    method BeginWorkspaceRuntimeOp(root: Path) returns (r: Result<(), GateError>)
      modifies this
      ensures match old(View()).Entered(root)
              case Ok(next) => r.Ok? && View() == next
              case Err(error) => r == Err(error) && View() == old(View())
    {
      if root in restoring {
        return Err(RestoreInProgress);
      }
      runtimeOps := runtimeOps[root := (if root in runtimeOps then runtimeOps[root] else 0) + 1];
      return Ok(());
    }

    method DropRuntimeOpGuard(root: Path)
      modifies this
      ensures View() == old(View()).Left(root)
    {
      if root !in runtimeOps {
        return;
      }
      var count := if runtimeOps[root] == 0 then 0 else runtimeOps[root] - 1;
      if count == 0 {
        runtimeOps := runtimeOps - {root};
      } else {
        runtimeOps := runtimeOps[root := count];
      }
    }
  }
}
