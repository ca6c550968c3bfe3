/** The webhook actions that supersede a task's work or close it, each taken as a whole. */
module Webhooks {
  import opened RunTypes
  import opened RunStores
  import opened Scheduling
  import opened Recovering
  import opened Servers
  import opened Paths
  import Cancels
  import TurnRuns
  import PR = PullRequests
  import T = RunTables

  predicate Active(runs: map<RunId, Run>, id: RunId, taskId: TaskId) {
    id in runs && runs[id].taskId == taskId && (runs[id].status == Queued || runs[id].status == Running)
  }

  /** Every queued or running run of the task has been asked to stop, except perhaps one. */
  ghost predicate Superseded(d: T.Tables, taskId: TaskId, except: Option<RunId>) {
    forall id :: Active(d.runs, id, taskId) ==> id in d.cancels || except == Some(id)
  }

  /** No run of another task was canceled or asked to stop. */
  ghost predicate OtherTasksSpared(d: T.Tables, d': T.Tables, taskId: TaskId) {
    forall id :: id in d.runs && id in d'.runs && d.runs[id].taskId != taskId ==>
                   && (d'.runs[id].status == Canceled ==> d.runs[id].status == Canceled)
                   && (id in d'.cancels <==> id in d.cancels)
  }

  /** What cancelRunningTaskRuns does: a request for each running run of the task. */
  ghost predicate RunningAsked(d: T.Tables, d': T.Tables, taskId: TaskId, req: CancelRequest) {
    && d'.runs == d.runs && d'.tasks == d.tasks && d'.leases == d.leases && d'.pauses == d.pauses
        && d'.nextSeq == d.nextSeq
    && (forall id :: id in d'.cancels <==> id in d.cancels || T.RunningFor(d, id, taskId))
    && (forall id :: id in d'.cancels ==> d'.cancels[id] == if T.RunningFor(d, id, taskId) then req else d.cancels[id])
    && d'.execs.Keys == d.execs.Keys
    && (forall id :: id in d.execs ==>
          d'.execs[id] == if T.RunningFor(d, id, taskId) then Execution(ExecStopping, d.execs[id].exitCode)
                          else d.execs[id])
  }

  /** A queued run of the task was canceled, a running one was asked to stop, for this reason. */
  predicate StoppedAt(d: T.Tables, d': T.Tables, id: RunId, taskId: TaskId, error: string, reason: StatusReason,
                      now: int)
    requires id in d.runs && id in d'.runs
  {
    var r, r' := d.runs[id], d'.runs[id];
    r.taskId == taskId ==>
      && (r.status == Queued ==>
            r'.status == Canceled && r'.error == error && r'.reason == reason && r'.completedAt == Some(now))
      && (r.status == Running ==>
            r'.status == Running && id in d'.cancels && d'.cancels[id] == CancelRequest(error, reason))
  }

  ghost predicate Stopped(d: T.Tables, d': T.Tables, taskId: TaskId, error: string, reason: StatusReason, now: int) {
    forall id :: id in d.runs && id in d'.runs ==> StoppedAt(d, d', id, taskId, error, reason, now)
  }

  function PRText(merged: bool): string {
    if merged then "pull request merged" else "pull request closed"
  }

  function PRReason(merged: bool): StatusReason {
    if merged then PRMerged else PRClosed
  }

  /** The flags of that task are these, those of the others as before. */
  ghost predicate FlagsAre(d: T.Tables, d': T.Tables, taskId: TaskId, completed: bool, prDraft: bool) {
    && taskId in d'.tasks && d'.tasks[taskId].completed == completed && d'.tasks[taskId].prDraft == prDraft
    && forall o :: o in d.tasks && o != taskId ==>
                     o in d'.tasks && d'.tasks[o].completed == d.tasks[o].completed
                     && d'.tasks[o].prDraft == d.tasks[o].prDraft
  }

  /** Rows that have left the queue, and requests, are as they were. */
  ghost predicate QueueAlone(d: T.Tables, d': T.Tables) {
    && d'.cancels == d.cancels
    && forall id :: id in d.runs && id in d'.runs && d.runs[id].status != Queued ==> d'.runs[id] == d.runs[id]
  }

  lemma StoppedStays(d: T.Tables, mid: T.Tables, d': T.Tables, taskId: TaskId, error: string, reason: StatusReason,
                     now: int, added: set<RunId>)
    requires Stopped(d, mid, taskId, error, reason, now) && QueueAlone(mid, d')
    requires d'.runs.Keys <= mid.runs.Keys + added && d.runs.Keys !! added
    ensures Stopped(d, d', taskId, error, reason, now)
  {
    forall id | id in d.runs && id in d'.runs
      ensures StoppedAt(d, d', id, taskId, error, reason, now)
    {
      assert id in mid.runs && StoppedAt(d, mid, id, taskId, error, reason, now);
    }
  }

  predicate FailedToWrite(r: Run, req: RunRequest, now: int) {
    && IsNewRun(r, req, now) && r.status == Failed && r.error == "prepare run files" && r.reason == NoReason
    && r.completedAt == Some(now) && r.startedAt.None?
  }

  /** The run is the one that was asked for. */
  predicate IsNewRun(r: Run, req: RunRequest, now: int) {
    && r.id == req.id && r.taskId == req.taskId && r.createdAt == now
    && r.prNumber == req.prNumber && r.prStatus == req.prStatus && r.headSHA == req.headSHA && r.prURL == ""
  }

  /** A request, and the execution marked as stopping. */
  function AskedToStop(d: T.Tables, id: RunId, req: CancelRequest): T.Tables {
    var asked := T.RequestCancel(d, id, req);
    if id in asked.execs then T.SetExecution(asked, id, ExecStopping, asked.execs[id].exitCode) else asked
  }

  predicate AskedSoFar(runs: seq<Run>, i: nat, taskId: TaskId, id: RunId) {
    exists k :: 0 <= k < i && k < |runs| && runs[k].id == id && runs[k].taskId == taskId
  }

  ghost predicate AskedUpTo(d0: T.Tables, d: T.Tables, runs: seq<Run>, i: nat, taskId: TaskId, req: CancelRequest) {
    && InSteps(d0, d) && d == d0.(cancels := d.cancels, execs := d.execs)
    && (forall id :: id in d.cancels <==> id in d0.cancels || AskedSoFar(runs, i, taskId, id))
    && d.execs.Keys == d0.execs.Keys
    && (forall id :: id in d0.execs ==>
          d.execs[id] == if AskedSoFar(runs, i, taskId, id) then Execution(ExecStopping, d0.execs[id].exitCode)
                         else d0.execs[id])
    && (forall id :: id in d.cancels ==>
        d.cancels[id] == if AskedSoFar(runs, i, taskId, id) then req else d0.cancels[id])
  }

  ghost predicate AsksAt(d: T.Tables, d': T.Tables, id: RunId, req: CancelRequest) {
    && d' == d.(cancels := d.cancels[id := req], execs := d'.execs) && d'.execs.Keys == d.execs.Keys
    && (forall o :: o in d.execs ==>
          d'.execs[o] == if o == id then Execution(ExecStopping, d.execs[o].exitCode) else d.execs[o])
  }

  lemma AskedOnce(d: T.Tables, id: RunId, req: CancelRequest)
    ensures AsksAt(d, AskedToStop(d, id, req), id, req)
  {
  }

  lemma AsksOne(d0: T.Tables, d: T.Tables, d': T.Tables, runs: seq<Run>, i: nat, taskId: TaskId, req: CancelRequest)
    requires AskedUpTo(d0, d, runs, i, taskId, req) && i < |runs|
    requires if runs[i].taskId == taskId
             then InSteps(d, d') && AsksAt(d, d', runs[i].id, req)
             else d' == d
    ensures AskedUpTo(d0, d', runs, i + 1, taskId, req)
  {
    forall id
      ensures AskedSoFar(runs, i + 1, taskId, id) <==>
              AskedSoFar(runs, i, taskId, id) || (id == runs[i].id && runs[i].taskId == taskId)
    {
      assert runs[i].taskId == taskId ==> AskedSoFar(runs, i + 1, taskId, runs[i].id);
    }
    if runs[i].taskId == taskId {
      InMoreSteps(d0, d, d');
    }
  }

  lemma AllAsked(d0: T.Tables, d: T.Tables, runs: seq<Run>, taskId: TaskId, req: CancelRequest)
    requires AskedUpTo(d0, d, runs, |runs|, taskId, req)
    requires forall r :: r in runs <==> r.id in d0.runs && d0.runs[r.id] == r && r.status == Running
    requires T.WellKeyed(d0)
    ensures RunningAsked(d0, d, taskId, req)
  {
    forall id
      ensures AskedSoFar(runs, |runs|, taskId, id) <==> T.RunningFor(d0, id, taskId)
    {
      if T.RunningFor(d0, id, taskId) {
        assert d0.runs[id] in runs;
      }
    }
  }

  /** Canceling the queued runs and asking the running ones leaves nothing of the task active. */
  lemma CancelThenAskSupersedes(d: T.Tables, d': T.Tables, taskId: TaskId, error: string, reason: StatusReason,
                                now: int)
    requires RunningAsked(T.CancelQueued(d, taskId, error, reason, now), d', taskId, CancelRequest(error, reason))
    ensures Superseded(d', taskId, None) && OtherTasksSpared(d, d', taskId) && d'.runs.Keys == d.runs.Keys
  {
    var mid := T.CancelQueued(d, taskId, error, reason, now);
    forall id | Active(d'.runs, id, taskId) ensures id in d'.cancels {
      assert T.RunningFor(mid, id, taskId);
    }
  }

  lemma CancelThenAskStops(d: T.Tables, d': T.Tables, taskId: TaskId, error: string, reason: StatusReason, now: int)
    requires RunningAsked(T.CancelQueued(d, taskId, error, reason, now), d', taskId, CancelRequest(error, reason))
    ensures Stopped(d, d', taskId, error, reason, now)
  {
    var mid := T.CancelQueued(d, taskId, error, reason, now);
    forall id | id in d.runs
      ensures StoppedAt(d, d', id, taskId, error, reason, now)
    {
      StopsOne(d, mid, d', id, taskId, error, reason, now);
    }
  }

  lemma StopsOne(d: T.Tables, mid: T.Tables, d': T.Tables, id: RunId, taskId: TaskId, error: string,
                 reason: StatusReason, now: int)
    requires id in d.runs && id in mid.runs && mid.runs[id] == T.CancelRowOf(d.runs[id], taskId, error, reason, now)
    requires RunningAsked(mid, d', taskId, CancelRequest(error, reason))
    ensures StoppedAt(d, d', id, taskId, error, reason, now)
  {
    assert T.RunningFor(mid, id, taskId) <==> d.runs[id].taskId == taskId && d.runs[id].status == Running;
  }

  lemma AddKeepsSuperseded(d: T.Tables, id: RunId, taskId: TaskId, prNumber: nat, prStatus: PRStatus,
                           headSHA: string, now: int, maxRuns: nat)
    requires id !in d.runs
    ensures var d' := T.AddRun(d, id, taskId, prNumber, prStatus, headSHA, now, maxRuns);
            && (Superseded(d, taskId, None) ==> Superseded(d', taskId, Some(id)))
            && OtherTasksSpared(d, d', taskId) && d'.runs.Keys <= d.runs.Keys + {id}
            && (forall o :: o in d.runs && o in d'.runs ==> d'.runs[o] == d.runs[o])
            && d'.cancels == d.cancels
            && (id in d'.runs ==> d'.runs[id] == T.NewRow(d, id, taskId, prNumber, prStatus, headSHA, now))
  {
    var d' := T.AddRun(d, id, taskId, prNumber, prStatus, headSHA, now, maxRuns);
    assert forall o :: Active(d'.runs, o, taskId) && o != id ==> Active(d.runs, o, taskId);
  }

  lemma FailKeepsSuperseded(d: T.Tables, id: RunId, taskId: TaskId, error: string, now: int)
    requires T.Inv(d) && id in d.runs && d.runs[id].status == Queued && d.runs[id].taskId == taskId
    ensures var d' := T.Transition(d, id, Failed, error, NoReason, now);
            && (Superseded(d, taskId, Some(id)) ==> Superseded(d', taskId, None))
            && OtherTasksSpared(d, d', taskId) && d'.runs.Keys == d.runs.Keys && QueueAlone(d, d')
            && d'.runs[id] == T.AtEnd(d.runs[id], Failed, error, NoReason, now)
            && (forall o :: o in d.runs ==> d'.runs[o].taskId == d.runs[o].taskId)
  {
    var d' := T.Transition(d, id, Failed, error, NoReason, now);
    assert forall o :: Active(d'.runs, o, taskId) ==> o != id && Active(d.runs, o, taskId);
  }

  lemma PassKeepsSuperseded(d: T.Tables, d': T.Tables, taskId: TaskId, except: Option<RunId>, me: InstanceId,
                            since: int)
    requires PassFrame(d, d', me, since, true)
    ensures Superseded(d, taskId, except) ==> Superseded(d', taskId, except)
    ensures OtherTasksSpared(d, d', taskId) && QueueAlone(d, d')
    ensures forall o :: o in d.runs ==> d'.runs[o].taskId == d.runs[o].taskId
  {
    assert forall o :: o in d.runs ==> PassAt(d, d', o, me, since, true);
    assert forall o :: Active(d'.runs, o, taskId) ==> Active(d.runs, o, taskId);
  }

  lemma SomeActive(runs: map<RunId, Run>, taskId: TaskId)
    ensures (exists id :: Active(runs, id, taskId)) <==>
            exists id :: id in runs && runs[id].taskId == taskId
                         && (runs[id].status == Queued || runs[id].status == Running)
  {
    forall id | id in runs && runs[id].taskId == taskId && (runs[id].status == Queued || runs[id].status == Running)
      ensures Active(runs, id, taskId)
    {
    }
  }

  lemma PassKeepsNewRun(d: T.Tables, d': T.Tables, req: RunRequest, now: int, me: InstanceId)
    requires exists since :: PassFrame(d, d', me, since, true)
    requires req.id in d.runs && IsNewRun(d.runs[req.id], req, now)
    ensures req.id in d'.runs && IsNewRun(d'.runs[req.id], req, now)
  {
    var since :| PassFrame(d, d', me, since, true);
    assert PassAt(d, d', req.id, me, since, true);
  }

  lemma SparedTransitive(d: T.Tables, mid: T.Tables, d': T.Tables, taskId: TaskId, added: set<RunId>)
    requires OtherTasksSpared(d, mid, taskId) && OtherTasksSpared(mid, d', taskId)
    requires d'.runs.Keys <= mid.runs.Keys + added && d.runs.Keys !! added
    requires forall id :: id in d.runs && id in mid.runs ==> mid.runs[id].taskId == d.runs[id].taskId
    ensures OtherTasksSpared(d, d', taskId)
  {
    assert forall id :: id in d.runs && id in d'.runs ==> id in mid.runs;
  }

  /** What a new run is asked for; the id is fresh. */
  datatype RunRequest = RunRequest(id: RunId, taskId: TaskId, prNumber: nat, prStatus: PRStatus, headSHA: string)

  class WebhookHandler {
    const server: Server
    const store: RunStore
    const prs: PR.PullRequestHandler

    ghost predicate Valid()
      reads this, server, store
    {
      server.store == store && prs.store == store && prs.sm == server.sm && server.Valid()
    }

    constructor (server: Server)
      requires server.Valid()
      ensures Valid() && this.server == server
    {
      this.server := server;
      this.store := server.store;
      prs := new PR.PullRequestHandler(server.sm);
    }

    method CancelRunningTaskRuns(taskId: TaskId, req: CancelRequest)
      requires Valid()
      modifies store`cancels, store`execs
      ensures Valid() && RunningAsked(old(store.Db()), store.Db(), taskId, req) && InSteps(old(store.Db()), store.Db())
    {
      ghost var d0 := store.Db();
      InNoSteps(d0);
      var runs := store.ListRunningRuns();
      for i := 0 to |runs|
        invariant Valid() && AskedUpTo(d0, store.Db(), runs, i, taskId, req)
      {
        ghost var d := store.Db();
        assert runs[i] in runs;
        if runs[i].taskId == taskId {
          AskedOnce(d, runs[i].id, req);
          Cancels.AskToStop(store, runs[i].id, req);
        }
        AsksOne(d0, d, store.Db(), runs, i, taskId, req);
      }
      AllAsked(d0, store.Db(), runs, taskId, req);
    }

    method CancelTaskRuns(taskId: TaskId, error: string, reason: StatusReason, now: int)
      requires Valid()
      modifies store`runs, store`cancels, store`execs
      ensures Valid() && store.runs.Keys == old(store.runs.Keys) && store.tasks == old(store.tasks)
      ensures InSteps(old(store.Db()), store.Db())
      ensures RunningAsked(T.CancelQueued(old(store.Db()), taskId, error, reason, now), store.Db(), taskId,
                           CancelRequest(error, reason))
      ensures Superseded(store.Db(), taskId, None) && OtherTasksSpared(old(store.Db()), store.Db(), taskId)
      ensures forall id :: id in store.runs ==> store.runs[id].taskId == old(store.runs[id].taskId)
      ensures Stopped(old(store.Db()), store.Db(), taskId, error, reason, now)
    {
      ghost var d0 := store.Db();
      store.CancelQueuedRuns(taskId, error, reason, now);
      ghost var mid := store.Db();
      CancelQueuedInSteps(d0, taskId, error, reason, now);
      CancelRunningTaskRuns(taskId, CancelRequest(error, reason));
      CancelThenAskSupersedes(d0, store.Db(), taskId, error, reason, now);
      CancelThenAskStops(d0, store.Db(), taskId, error, reason, now);
      InMoreSteps(d0, mid, store.Db());
    }

    /** Refused while draining and for a completed task; fails the run if its files cannot be
        written. */
    method CreateAndQueueRun(req: RunRequest, now: int, writeFails: bool, env: nat -> Turn)
      returns (created: Option<RunId>)
      requires Valid() && req.id !in store.runs
      requires forall i :: now <= env(i).now <= env(i).leaseAt && Calm(env(i))
      modifies server`draining, store
      ensures Valid() && Reaches(old(store.Db()), store.Db(), {req.id})
      ensures (forall id :: id in store.runs && id in old(store.runs) ==>
               store.runs[id].taskId == old(store.runs[id].taskId))
      ensures created == if old(server.draining) || old(store.IsTaskCompleted(req.taskId)) || writeFails then None
                         else Some(req.id)
      ensures old(server.draining) || old(store.IsTaskCompleted(req.taskId)) ==> store.Db() == old(store.Db())
      ensures created.Some? ==>
                req.id in store.runs && IsNewRun(store.runs[req.id], req, now) && server.CaughtUp(env, 0)
      ensures writeFails && !old(server.draining) && !old(store.IsTaskCompleted(req.taskId)) ==>
                req.id in store.runs && FailedToWrite(store.runs[req.id], req, now)
      ensures Superseded(old(store.Db()), req.taskId, None) ==> Superseded(store.Db(), req.taskId, created)
      ensures OtherTasksSpared(old(store.Db()), store.Db(), req.taskId) && QueueAlone(old(store.Db()), store.Db())
      ensures store.runs.Keys <= old(store.runs.Keys) + {req.id}
    {
      created := None;
      InNoSteps(store.Db());
      ReachesAnyway(store.Db(), store.Db(), {req.id});
      if server.draining || store.IsTaskCompleted(req.taskId) {
        return;
      }
      ghost var d0 := store.Db();
      QueueRun(req, now);
      ghost var d1 := store.Db();
      created := StartQueued(req, now, writeFails, env);
      ReachesThenSteps(d0, d1, store.Db(), {req.id});
      SparedTransitive(d0, d1, store.Db(), req.taskId, {req.id});
    }

    /** Fails the queued run if its files cannot be written, else schedules. */
    method StartQueued(req: RunRequest, now: int, writeFails: bool, env: nat -> Turn) returns (created: Option<RunId>)
      requires Valid() && req.id in store.runs
      requires store.runs[req.id].status == Queued && IsNewRun(store.runs[req.id], req, now)
      requires forall i :: now <= env(i).now <= env(i).leaseAt && Calm(env(i))
      modifies server`draining, store
      ensures Valid() && store.runs.Keys == old(store.runs.Keys) && InSteps(old(store.Db()), store.Db())
      ensures forall id :: id in store.runs ==> store.runs[id].taskId == old(store.runs[id].taskId)
      ensures created == if writeFails then None else Some(req.id)
      ensures writeFails ==> FailedToWrite(store.runs[req.id], req, now)
      ensures !writeFails ==> IsNewRun(store.runs[req.id], req, now) && server.CaughtUp(env, 0)
      ensures Superseded(old(store.Db()), req.taskId, Some(req.id)) ==> Superseded(store.Db(), req.taskId, created)
      ensures OtherTasksSpared(old(store.Db()), store.Db(), req.taskId) && QueueAlone(old(store.Db()), store.Db())
    {
      if writeFails {
        FailToWrite(req, now);
        return None;
      }
      ghost var d := store.Db();
      ghost var claims, stop := server.ScheduleRuns(req.taskId, env, now, true);
      TurnRuns.PassInSteps(d, store.Db(), claims, req.taskId, server.instance, server.ConcurrencyLimit(), env);
      PassKeepsSuperseded(d, store.Db(), req.taskId, Some(req.id), server.instance, now);
      PassKeepsNewRun(d, store.Db(), req, now, server.instance);
      created := Some(req.id);
    }

    method FailToWrite(req: RunRequest, now: int)
      requires Valid() && req.id in store.runs
      requires store.runs[req.id].status == Queued && IsNewRun(store.runs[req.id], req, now)
      modifies store`runs, store`tasks
      ensures Valid() && store.runs.Keys == old(store.runs.Keys) && InSteps(old(store.Db()), store.Db())
      ensures forall id :: id in store.runs ==> store.runs[id].taskId == old(store.runs[id].taskId)
      ensures FailedToWrite(store.runs[req.id], req, now)
      ensures Superseded(old(store.Db()), req.taskId, Some(req.id)) ==> Superseded(store.Db(), req.taskId, None)
      ensures OtherTasksSpared(old(store.Db()), store.Db(), req.taskId) && QueueAlone(old(store.Db()), store.Db())
    {
      ghost var d := store.Db();
      TransitionInSteps(d, req.id, Failed, T.NO_PATCH, "prepare run files", NoReason, now);
      FailKeepsSuperseded(d, req.id, req.taskId, "prepare run files", now);
      var _ := server.sm.Transition(req.id, Failed, "prepare run files", NoReason, now);
    }

    method QueueRun(req: RunRequest, now: int)
      requires Valid() && req.id !in store.runs
      modifies store`runs, store`tasks, store`nextSeq
      ensures Valid() && req.id in store.runs && Reaches(old(store.Db()), store.Db(), {req.id})
      ensures store.runs[req.id].status == Queued && IsNewRun(store.runs[req.id], req, now)
      ensures QueueAlone(old(store.Db()), store.Db())
      ensures store.runs.Keys <= old(store.runs.Keys) + {req.id}
      ensures Superseded(old(store.Db()), req.taskId, None) ==> Superseded(store.Db(), req.taskId, Some(req.id))
      ensures OtherTasksSpared(old(store.Db()), store.Db(), req.taskId)
      ensures forall id :: id in store.runs && id in old(store.runs) ==> store.runs[id] == old(store.runs[id])
    {
      ghost var d0 := store.Db();
      store.UpsertTask(req.taskId, req.prNumber);
      ghost var d1 := store.Db();
      TaskInSteps(d0, d1, req.taskId);
      AddInSteps(d1, req.id, req.taskId, req.prNumber, req.prStatus, req.headSHA, now, store.maxRuns);
      AddKeepsSuperseded(d1, req.id, req.taskId, req.prNumber, req.prStatus, req.headSHA, now, store.maxRuns);
      var ok := store.AddRun(req.id, req.taskId, req.prNumber, req.prStatus, req.headSHA, now);
      StepsThenReaches(d0, d1, store.Db(), {req.id});
    }

    method HasActiveRun(taskId: TaskId) returns (found: bool)
      ensures found <==> exists id :: Active(store.runs, id, taskId)
    {
      found := exists id :: id in store.runs && store.runs[id].taskId == taskId
                            && (store.runs[id].status == Queued || store.runs[id].status == Running);
      SomeActive(store.runs, taskId);
    }

    // ---------- the actions ----------

    /** A pull request got new commits: the task's work is superseded by one new run, if the task
        had any and is open and not a draft. */
    method SynchronizePullRequest(req: RunRequest, now: int, writeFails: bool, env: nat -> Turn)
      returns (created: Option<RunId>)
      requires Valid() && req.id !in store.runs && req.taskId in store.tasks
      requires forall i :: now <= env(i).now <= env(i).leaseAt && Calm(env(i))
      modifies server`draining, store
      ensures Valid() && Reaches(old(store.Db()), store.Db(), {req.id})
      ensures Superseded(store.Db(), req.taskId, created)
      ensures OtherTasksSpared(old(store.Db()), store.Db(), req.taskId)
      ensures created == if (exists id :: Active(old(store.runs), id, req.taskId))
              && !old(store.tasks[req.taskId]).completed
                            && !old(store.tasks[req.taskId]).prDraft && !old(server.draining) && !writeFails
                         then Some(req.id) else None
      ensures created.Some? ==>
                req.id in store.runs && IsNewRun(store.runs[req.id], req, now) && server.CaughtUp(env, 0)
      ensures Stopped(old(store.Db()), store.Db(), req.taskId, "pull request synchronized", PRSynchronized, now)
    {
      var task := store.tasks[req.taskId];
      var hadActiveRun := HasActiveRun(req.taskId);
      ghost var d0 := store.Db();
      CancelTaskRuns(req.taskId, "pull request synchronized", PRSynchronized, now);
      ghost var d1 := store.Db();
      created := None;
      ReachesAnyway(d0, d1, {req.id});
      if !hadActiveRun || task.completed || task.prDraft {
        return;
      }
      created := CreateAndQueueRun(req, now, writeFails, env);
      StepsThenReaches(d0, d1, store.Db(), {req.id});
      SparedTransitive(d0, d1, store.Db(), req.taskId, {req.id});
      StoppedStays(d0, d1, store.Db(), req.taskId, "pull request synchronized", PRSynchronized, now, {req.id});
    }

    /** An edited issue always supersedes. */
    method EditIssue(req: RunRequest, now: int, writeFails: bool, env: nat -> Turn) returns (created: Option<RunId>)
      requires Valid() && req.id !in store.runs
      requires forall i :: now <= env(i).now <= env(i).leaseAt && Calm(env(i))
      modifies server`draining, store
      ensures Valid() && Reaches(old(store.Db()), store.Db(), {req.id})
      ensures Superseded(store.Db(), req.taskId, created)
      ensures created == if old(server.draining) || old(store.IsTaskCompleted(req.taskId)) || writeFails then None
                         else Some(req.id)
      ensures OtherTasksSpared(old(store.Db()), store.Db(), req.taskId)
      ensures created.Some? ==>
                req.id in store.runs && IsNewRun(store.runs[req.id], req, now) && server.CaughtUp(env, 0)
      ensures Stopped(old(store.Db()), store.Db(), req.taskId, "issue edited", IssueEdited, now)
    {
      ghost var d0 := store.Db();
      CancelTaskRuns(req.taskId, "issue edited", IssueEdited, now);
      ghost var d1 := store.Db();
      created := CreateAndQueueRun(req, now, writeFails, env);
      StepsThenReaches(d0, d1, store.Db(), {req.id});
      SparedTransitive(d0, d1, store.Db(), req.taskId, {req.id});
      StoppedStays(d0, d1, store.Db(), req.taskId, "issue edited", IssueEdited, now, {req.id});
    }

    /** A pull request was merged or closed. */
    method ClosePullRequest(taskId: TaskId, prNumber: nat, merged: bool, now: int)
      requires Valid() && taskId in store.tasks && prNumber > 0
      modifies store
      ensures Valid() && Superseded(store.Db(), taskId, None)
      ensures merged ==> store.IsTaskCompleted(taskId)
      ensures Stopped(old(store.Db()), store.Db(), taskId, PRText(merged), PRReason(merged), now)
      ensures FlagsAre(old(store.Db()), store.Db(), taskId, merged || old(store.tasks[taskId].completed),
                       old(store.tasks[taskId].prDraft))
      ensures EndedWithPR(old(store.Db()), store.Db(), taskId, prNumber, merged) && InSteps(old(store.Db()), store.Db())
    {
      ghost var d0 := store.Db();
      InNoSteps(d0);
      if merged {
        var _ := store.SetTaskCompleted(taskId, true);
        TaskInSteps(d0, store.Db(), taskId);
      }
      ghost var d1 := store.Db();
      EndWithPullRequest(taskId, prNumber, merged, now);
      InMoreSteps(d0, d1, store.Db());
      TasksDoNotMatter(d0, d1, store.Db(), taskId, prNumber, merged, now);
    }

    method EndWithPullRequest(taskId: TaskId, prNumber: nat, merged: bool, now: int)
      requires Valid() && taskId in store.tasks && prNumber > 0
      modifies store`runs, store`tasks, store`cancels, store`execs
      ensures Valid() && Superseded(store.Db(), taskId, None)
      ensures SameTaskFlags(old(store.Db()), store.Db())
      ensures Stopped(old(store.Db()), store.Db(), taskId, PRText(merged), PRReason(merged), now)
      ensures EndedWithPR(old(store.Db()), store.Db(), taskId, prNumber, merged) && InSteps(old(store.Db()), store.Db())
    {
      ghost var d0 := store.Db();
      var error := if merged then "pull request merged" else "pull request closed";
      var reason := if merged then PRMerged else PRClosed;
      var e := if merged then PR.Merged else PR.ClosedUnmerged;
      CancelTaskRuns(taskId, error, reason, now);
      ghost var d1 := store.Db();
      prs.Reconcile(prNumber, e, now);
      ReconcileKeepsSuperseded(d1, store.Db(), T.TrimOldRuns(d1.runs, T.LISTED).Keys, taskId, prNumber, e, now);
      ReconcileEndsPR(d0, d1, store.Db(), taskId, error, reason, prNumber, e, now);
      ReconcileKeepsStopped(d0, d1, store.Db(), T.TrimOldRuns(d1.runs, T.LISTED).Keys, taskId, error, reason,
                            prNumber, e, now);
      InMoreSteps(d0, d1, store.Db());
    }

    /** While a pull request is a draft, no run on it is claimed; the running ones are asked to
        stop and the queued ones wait. */
    method ConvertPullRequestToDraft(taskId: TaskId)
      requires Valid() && taskId in store.tasks
      modifies store`tasks, store`cancels, store`execs
      ensures Valid() && store.runs == old(store.runs) && InSteps(old(store.Db()), store.Db())
      ensures RunningAsked(old(store.Db()).(tasks := store.tasks), store.Db(), taskId,
                           CancelRequest("pull request converted to draft", PRDraft))
      ensures FlagsAre(old(store.Db()), store.Db(), taskId, old(store.tasks[taskId].completed), true)
      ensures forall id :: id in store.runs && store.runs[id].taskId == taskId && store.runs[id].prNumber > 0 ==>
                !T.Eligible(store.Db(), id)
    {
      ghost var d0 := store.Db();
      var _ := store.SetTaskPRDraft(taskId, true);
      ghost var d1 := store.Db();
      TaskInSteps(d0, d1, taskId);
      CancelRunningTaskRuns(taskId, CancelRequest("pull request converted to draft", PRDraft));
      InMoreSteps(d0, d1, store.Db());
    }

    /** Out of draft, the task is open for scheduling again; an open one is scheduled at once. */
    method ReadyPullRequest(taskId: TaskId, now: int, env: nat -> Turn)
      requires Valid() && taskId in store.tasks
      requires forall i :: now <= env(i).now <= env(i).leaseAt && Calm(env(i))
      modifies server`draining, store
      ensures Valid() && InSteps(old(store.Db()), store.Db())
      ensures FlagsAre(old(store.Db()), store.Db(), taskId, old(store.tasks[taskId].completed), false)
      ensures if old(store.tasks[taskId].completed) then store.runs == old(store.runs)
              else QueueAlone(old(store.Db()), store.Db()) && server.CaughtUp(env, 0)
      ensures OtherTasksSpared(old(store.Db()), store.Db(), taskId)
    {
      var task := store.tasks[taskId];
      ghost var d0 := store.Db();
      var _ := store.SetTaskPRDraft(taskId, false);
      ghost var d1 := store.Db();
      TaskInSteps(d0, d1, taskId);
      if !task.completed {
        ScheduleTask(taskId, now, env);
        InMoreSteps(d0, d1, store.Db());
      }
    }

    method ScheduleTask(taskId: TaskId, now: int, env: nat -> Turn)
      requires Valid()
      requires forall i :: now <= env(i).now <= env(i).leaseAt && Calm(env(i))
      modifies server`draining, store
      ensures Valid() && InSteps(old(store.Db()), store.Db()) && SameTaskFlags(old(store.Db()), store.Db())
      ensures QueueAlone(old(store.Db()), store.Db()) && OtherTasksSpared(old(store.Db()), store.Db(), taskId)
      ensures server.CaughtUp(env, 0)
    {
      ghost var d := store.Db();
      ghost var claims, stop := server.ScheduleRuns(taskId, env, now, true);
      TurnRuns.PassInSteps(d, store.Db(), claims, taskId, server.instance, server.ConcurrencyLimit(), env);
      PassKeepsSuperseded(d, store.Db(), taskId, None, server.instance, now);
    }

    /** A closed issue completes its task and leaves nothing of it active. */
    method CloseIssue(taskId: TaskId, now: int)
      requires Valid()
      modifies store
      ensures Valid() && Superseded(store.Db(), taskId, None) && store.IsTaskCompleted(taskId)
      ensures OtherTasksSpared(old(store.Db()), store.Db(), taskId) && store.runs.Keys == old(store.runs.Keys)
      ensures InSteps(old(store.Db()), store.Db())
      ensures Stopped(old(store.Db()), store.Db(), taskId, "issue closed", IssueClosed, now)
      ensures FlagsAre(old(store.Db()), store.Db(), taskId, true,
                       taskId in old(store.tasks) && old(store.tasks[taskId].prDraft))
    {
      ghost var d0 := store.Db();
      store.UpsertTask(taskId, 0);
      ghost var d1 := store.Db();
      TaskInSteps(d0, d1, taskId);
      var _ := store.SetTaskCompleted(taskId, true);
      ghost var d2 := store.Db();
      TaskInSteps(d1, d2, taskId);
      InMoreSteps(d0, d1, d2);
      CancelTaskRuns(taskId, "issue closed", IssueClosed, now);
      InMoreSteps(d0, d2, store.Db());
    }
  }

  /** Reconciling a pull request leaves no run active that was not. */
  lemma ReconcileKeepsSuperseded(d: T.Tables, d': T.Tables, ids: set<RunId>, taskId: TaskId, prNumber: nat,
                                 e: PR.PREvent, now: int)
    requires PR.ReconciledRuns(d, d', ids, prNumber, e, now) && Superseded(d, taskId, None)
    ensures Superseded(d', taskId, None)
  {
    forall id | Active(d'.runs, id, taskId) ensures id in d'.cancels {
      assert PR.ReconciledAt(d, d', id in ids, id, prNumber, e, now);
      assert Active(d.runs, id, taskId);
    }
  }

  lemma ReconcileKeepsStopped(d: T.Tables, mid: T.Tables, d': T.Tables, ids: set<RunId>, taskId: TaskId,
                              error: string, reason: StatusReason, prNumber: nat, e: PR.PREvent, now: int)
    requires Stopped(d, mid, taskId, error, reason, now) && PR.ReconciledRuns(mid, d', ids, prNumber, e, now)
    requires mid.runs.Keys == d.runs.Keys
    ensures Stopped(d, d', taskId, error, reason, now)
  {
    forall id | id in d.runs && id in d'.runs
      ensures StoppedAt(d, d', id, taskId, error, reason, now)
    {
      assert StoppedAt(d, mid, id, taskId, error, reason, now);
      assert PR.ReconciledAt(mid, d', id in ids, id, prNumber, e, now);
      ReconciledStaysStopped(mid.runs[id], e, now);
    }
  }

  lemma ReconciledStaysStopped(r: Run, e: PR.PREvent, now: int)
    ensures var r' := PR.ReconciledRow(r, e, now);
            r.status != Review ==> r' == r.(prStatus := r'.prStatus)
  {
  }

  /** If the run is listed, of the pull request and in review, it ends with it; if it is of
      another task and another pull request, it is as before. */
  ghost predicate EndedAt(d: T.Tables, d': T.Tables, taskId: TaskId, prNumber: nat, merged: bool, id: RunId)
    requires id in d.runs
  {
    && id in d'.runs
    && (id in T.TrimOldRuns(d.runs, T.LISTED) && d.runs[id].prNumber == prNumber && d.runs[id].status == Review
        && d.runs[id].prStatus != PRStatusMerged ==>
          d'.runs[id].status == (if merged then Succeeded else Canceled))
    && (d.runs[id].taskId != taskId && d.runs[id].prNumber != prNumber ==>
          d'.runs[id] == d.runs[id] && (id in d'.cancels <==> id in d.cancels))
  }

  ghost predicate EndedWithPR(d: T.Tables, d': T.Tables, taskId: TaskId, prNumber: nat, merged: bool) {
    forall id :: id in d.runs ==> EndedAt(d, d', taskId, prNumber, merged, id)
  }

  lemma TasksDoNotMatter(d: T.Tables, d1: T.Tables, d': T.Tables, taskId: TaskId, prNumber: nat, merged: bool, now: int)
    requires d1 == d.(tasks := d1.tasks)
    requires Stopped(d1, d', taskId, PRText(merged), PRReason(merged), now)
    requires EndedWithPR(d1, d', taskId, prNumber, merged)
    ensures Stopped(d, d', taskId, PRText(merged), PRReason(merged), now)
    ensures EndedWithPR(d, d', taskId, prNumber, merged)
  {
    forall id | id in d.runs
      ensures EndedAt(d, d', taskId, prNumber, merged, id)
      ensures StoppedAt(d, d', id, taskId, PRText(merged), PRReason(merged), now)
    {
      assert EndedAt(d1, d', taskId, prNumber, merged, id);
      assert StoppedAt(d1, d', id, taskId, PRText(merged), PRReason(merged), now);
    }
  }

  lemma RunEndsWithPR(d: T.Tables, mid: T.Tables, d': T.Tables, taskId: TaskId, prNumber: nat, e: PR.PREvent, now: int,
                      reached: bool, id: RunId)
    requires e != PR.Reopened && id in d.runs && id in mid.runs && d'.cancels == mid.cancels
    requires d.runs[id].taskId != taskId ==> (id in mid.cancels <==> id in d.cancels)
    requires d.runs[id].taskId != taskId || d.runs[id].status != Queued ==> mid.runs[id] == d.runs[id]
    requires PR.ReconciledAt(mid, d', reached, id, prNumber, e, now)
    requires id in T.TrimOldRuns(d.runs, T.LISTED) ==> reached
    ensures EndedAt(d, d', taskId, prNumber, e == PR.Merged, id)
  {
  }

  lemma ReconcileEndsPR(d: T.Tables, mid: T.Tables, d': T.Tables, taskId: TaskId, error: string, reason: StatusReason,
                        prNumber: nat, e: PR.PREvent, now: int)
    requires RunningAsked(T.CancelQueued(d, taskId, error, reason, now), mid, taskId, CancelRequest(error, reason))
    requires e != PR.Reopened
    requires PR.ReconciledRuns(mid, d', T.TrimOldRuns(mid.runs, T.LISTED).Keys, prNumber, e, now)
    ensures EndedWithPR(d, d', taskId, prNumber, e == PR.Merged)
  {
    T.NumbersDecideTrim(d.runs, mid.runs, T.LISTED);
    forall id | id in d.runs
      ensures EndedAt(d, d', taskId, prNumber, e == PR.Merged, id)
    {
      var reached := id in T.TrimOldRuns(mid.runs, T.LISTED).Keys;
      assert PR.ReconciledAt(mid, d', reached, id, prNumber, e, now);
      RunEndsWithPR(d, mid, d', taskId, prNumber, e, now, reached, id);
    }
  }
}
