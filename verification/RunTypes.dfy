/** Entities of the run lifecycle: statuses, the transition table, and the rows of
    the tables that the orchestrator instances share. */
module RunTypes {

  datatype Option<+T> = None | Some(value: T)

  type RunId = string
  type TaskId = string
  type InstanceId = string

  datatype RunStatus = Queued | Running | Review | Succeeded | Failed | Canceled

  datatype StatusReason =
    | NoReason
    | UserCanceled
    | IssueClosed
    | IssueEdited
    | PRClosed
    | PRSynchronized
    | PRDraft
    | PRMerged
    | ReviewThreadResolved
    | TaskCompleted
    | Shutdown
    | DeployReclaimed
    | CredentialLeaseLost

  datatype PRStatus = PRNone | PROpen | PRStatusMerged | PRClosedUnmerged

  predicate IsFinal(s: RunStatus) {
    s == Review || s == Succeeded || s == Failed || s == Canceled
  }

  /** The rows of the transition table. */
  function NextStatuses(s: RunStatus): set<RunStatus> {
    match s
    case Queued => {Queued, Running, Failed, Canceled}
    case Running => {Queued, Running, Review, Succeeded, Failed, Canceled}
    case Review => {Review, Succeeded, Canceled}
    case Succeeded => {Succeeded}
    case Failed => {Failed}
    case Canceled => {Canceled}
  }

  predicate CanTransition(from: RunStatus, to: RunStatus) {
    to in NextStatuses(from)
  }

  /** In words: a status may stay; a queued run is started or ended, but not in review; a running
      one may go anywhere, even back; one in review succeeds or is canceled. */
  lemma TransitionIff(from: RunStatus, to: RunStatus)
    ensures CanTransition(from, to) <==>
            || to == from || from == Running
            || (from == Queued && (to == Running || to == Failed || to == Canceled))
            || (from == Review && (to == Succeeded || to == Canceled))
  {
  }

  /** Final are the statuses that no run of the agent comes after. */
  lemma FinalIff(s: RunStatus)
    ensures IsFinal(s) <==> !CanReach(s, Running)
  {
  }

  /** What the table allows in any number of transitions. */
  predicate CanReach(from: RunStatus, to: RunStatus) {
    match from
    case Queued => true
    case Running => true
    case Review => to == Review || to == Succeeded || to == Canceled
    case Succeeded => to == Succeeded
    case Failed => to == Failed
    case Canceled => to == Canceled
  }

  ghost predicate IsTransitionPath(path: seq<RunStatus>) {
    forall i :: 0 <= i < |path| - 1 ==> CanTransition(path[i], path[i + 1])
  }

  /** CanReach is exactly reachability in the transition table. */
  lemma {:induction false} CanReachIsReachability(from: RunStatus, to: RunStatus)
    ensures CanReach(from, to) <==>
            exists path: seq<RunStatus> :: |path| > 0 && path[0] == from && path[|path| - 1] == to
                && IsTransitionPath(path)
  {
    if CanReach(from, to) {
      var path := if CanTransition(from, to) then [from, to] else [from, Running, to];
      assert path[0] == from && path[|path| - 1] == to && IsTransitionPath(path);
    }
    forall path: seq<RunStatus> | |path| > 0 && path[0] == from && path[|path| - 1] == to && IsTransitionPath(path)
      ensures CanReach(from, to)
    {
      PathStaysReachable(path, |path| - 1);
    }
  }

  lemma {:induction false} PathStaysReachable(path: seq<RunStatus>, k: nat)
    requires k < |path| && IsTransitionPath(path)
    ensures CanReach(path[0], path[k])
  {
    if k > 0 {
      PathStaysReachable(path, k - 1);
      assert CanTransition(path[k - 1], path[(k - 1) + 1]);
    }
  }

  datatype Run = Run(
    id: RunId,
    taskId: TaskId,
    seqNo: nat,
    createdAt: int,
    status: RunStatus,
    reason: StatusReason,
    error: string,
    prNumber: nat,
    prURL: string,
    prStatus: PRStatus,
    headSHA: string,
    startedAt: Option<int>,
    completedAt: Option<int>)

  datatype Task = Task(completed: bool, prDraft: bool, prNumber: nat)

  /** A cancel request; `source` is the status reason its source string stands for. */
  datatype CancelRequest = CancelRequest(reason: string, source: StatusReason)

  datatype ExecutionStatus = ExecCreated | ExecRunning | ExecStopping | ExecExited

  datatype Execution = Execution(status: ExecutionStatus, exitCode: int)

  datatype RunLease = RunLease(owner: InstanceId, heartbeatAt: int, expiresAt: int)

  datatype SchedulerPause = SchedulerPause(reason: string, until: int)

  const USER_CANCEL := CancelRequest("canceled by user", UserCanceled)

  /** The scope of the scheduler's pause. */
  const WORKERS := "workers"

  const RUN_LEASE_TTL: int := 90_000_000_000 // 90 s in nanoseconds
}
