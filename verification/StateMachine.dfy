/** The task state machine (src/orchestrator/state_machine.py). */
module StateMachine {
  datatype TaskState = Pending | InProgress | Testing | Review | BlockedHitl | Complete | Failed

  function Transitions(s: TaskState): set<TaskState>
  {
    match s
    case Pending => {InProgress, Failed}
    case InProgress => {Testing, Failed, BlockedHitl}
    case Testing => {Review, InProgress, Failed}
    case Review => {BlockedHitl, InProgress, Failed}
    case BlockedHitl => {Complete, InProgress, Failed}
    case Complete => {}
    case Failed => {Pending}
  }

  predicate CanTransition(source: TaskState, target: TaskState)
  {
    target in Transitions(source)
  }

  /** The table read backwards: from where each state can be reached. */
  function Sources(t: TaskState): set<TaskState>
  {
    match t
    case Pending => {Failed}
    case InProgress => {Pending, Testing, Review, BlockedHitl}
    case Testing => {InProgress}
    case Review => {Testing}
    case BlockedHitl => {InProgress, Review}
    case Complete => {BlockedHitl}
    case Failed => {Pending, InProgress, Testing, Review, BlockedHitl}
  }

  lemma ReachedFromExactly(source: TaskState, target: TaskState)
    ensures CanTransition(source, target) <==> source in Sources(target)
  {
  }

  predicate IsTerminal(s: TaskState)
  {
    |Transitions(s)| == 0
  }

  /** A walk through the table. */
  predicate IsPath(path: seq<TaskState>)
  {
    |path| > 0 && forall i :: 0 < i < |path| ==> CanTransition(path[i - 1], path[i])
  }

  /** COMPLETE ends every walk: nothing leaves it, and it is the only such state. */
  lemma CompleteIsFinal(path: seq<TaskState>, i: nat)
    requires IsPath(path) && i < |path| && path[i] == Complete
    ensures i == |path| - 1
    ensures forall s :: IsTerminal(s) <==> s == Complete
  {
    assert i + 1 < |path| ==> CanTransition(path[i], path[i + 1]);
  }

  /** A walk from PENDING reaches COMPLETE only through IN_PROGRESS and then, directly
      before it, BLOCKED_HITL: human approval cannot be stepped around. */
  lemma {:induction false} CompleteOnlyThroughTheGate(path: seq<TaskState>)
    requires IsPath(path) && path[0] == Pending && path[|path| - 1] == Complete
    ensures |path| >= 4 && path[|path| - 2] == BlockedHitl && InProgress in path[..|path| - 2]
  {
    var n := |path|;
    assert n > 1;
    assert CanTransition(path[n - 2], path[n - 1]);
    assert path[n - 2] == BlockedHitl;
    WorkComesFirst(path[..n - 1]);
    assert path[..n - 2] == path[..n - 1][..n - 2];
  }

  lemma {:induction false} WorkComesFirst(path: seq<TaskState>)
    requires IsPath(path) && path[0] == Pending
    requires path[|path| - 1] in {Testing, Review, BlockedHitl}
    ensures |path| >= 3 && InProgress in path[..|path| - 1]
  {
    var n := |path|;
    assert n > 1;
    assert CanTransition(path[n - 2], path[n - 1]);
    if path[n - 2] == InProgress {
      assert n > 2;
      assert path[..n - 1][n - 2] == InProgress;
    } else {
      WorkComesFirst(path[..n - 1]);
      assert path[..n - 1][..n - 2] == path[..n - 2] <= path[..n - 1];
    }
  }
}
