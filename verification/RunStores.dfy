/** The store: one object holding the run tables, one method per statement or transaction. */
module RunStores {
  import opened RunTypes
  import T = RunTables

  class RunStore {
    var runs: map<RunId, Run>
    var tasks: map<TaskId, Task>
    var cancels: map<RunId, CancelRequest>
    var leases: map<RunId, RunLease>
    var execs: map<RunId, Execution>
    var pauses: map<string, SchedulerPause>
    var nextSeq: nat
    const maxRuns: nat

    ghost function Db(): T.Tables
      reads this
    {
      T.Tables(runs, tasks, cancels, leases, execs, pauses, nextSeq)
    }

    ghost predicate Valid()
      reads this
    {
      T.Inv(Db()) && maxRuns > 0
    }

    constructor (maxRuns: int)
      ensures Valid() && Db() == T.EMPTY
      ensures this.maxRuns == if maxRuns <= 0 then 200 else maxRuns
    {
      this.maxRuns := if maxRuns <= 0 then 200 else maxRuns;
      runs, tasks, cancels, leases, execs, pauses, nextSeq := map[], map[], map[], map[], map[], map[], 1;
    }

    // ---------- tasks ----------

    method UpsertTask(taskId: TaskId, prNumber: nat)
      requires Valid()
      modifies `tasks
      ensures Valid() && tasks == T.UpsertTask(old(tasks), taskId, prNumber)
    {
      var task := if taskId in tasks then tasks[taskId] else Task(false, false, 0);
      if prNumber > 0 {
        task := task.(prNumber := prNumber);
      }
      tasks := tasks[taskId := task];
      T.RewrittenRowsKeep(old(Db()), Db());
    }

    /** Fails when the task does not exist. */
    method SetTaskCompleted(taskId: TaskId, completed: bool) returns (ok: bool)
      requires Valid()
      modifies `tasks
      ensures Valid() && ok == (taskId in old(tasks))
      ensures Db() == T.SetTaskCompleted(old(Db()), taskId, completed)
    {
      ok := taskId in tasks;
      if ok {
        tasks := tasks[taskId := tasks[taskId].(completed := completed)];
      }
      T.RewrittenRowsKeep(old(Db()), Db());
    }

    /** Fails when the task does not exist. */
    method SetTaskPRDraft(taskId: TaskId, draft: bool) returns (ok: bool)
      requires Valid()
      modifies `tasks
      ensures Valid() && ok == (taskId in old(tasks))
      ensures tasks == if ok then old(tasks)[taskId := old(tasks)[taskId].(prDraft := draft)] else old(tasks)
    {
      ok := taskId in tasks;
      if ok {
        tasks := tasks[taskId := tasks[taskId].(prDraft := draft)];
      }
      T.RewrittenRowsKeep(old(Db()), Db());
    }

    predicate IsTaskCompleted(taskId: TaskId)
      reads `tasks
    {
      taskId in tasks && tasks[taskId].completed
    }

    // ---------- runs ----------

    method AddRun(id: RunId, taskId: TaskId, prNumber: nat, prStatus: PRStatus, headSHA: string, now: int)
      returns (ok: bool)
      requires Valid()
      modifies `runs, `tasks, `nextSeq
      ensures Valid() && ok == (id !in old(runs))
      ensures Db() == T.AddRun(old(Db()), id, taskId, prNumber, prStatus, headSHA, now, maxRuns)
      ensures ok ==> id in runs && runs[id].status == Queued && runs[id].taskId == taskId
    {
      ghost var db := Db();
      T.AddRunKeeps(db, id, taskId, prNumber, prStatus, headSHA, now, maxRuns);
      if id in runs {
        return false;
      }
      T.AddedRunStays(db, id, taskId, prNumber, prStatus, headSHA, now, maxRuns);
      InsertRun(id, taskId, prNumber, prStatus, headSHA, now);
      runs := T.TrimOldRuns(runs, maxRuns);
      ok := true;
    }

    method InsertRun(id: RunId, taskId: TaskId, prNumber: nat, prStatus: PRStatus, headSHA: string, now: int)
      modifies `runs, `tasks, `nextSeq
      ensures Db() == T.InsertRun(old(Db()), id, taskId, prNumber, prStatus, headSHA, now)
    {
      var task := if taskId in tasks then tasks[taskId] else Task(false, false, 0);
      tasks := tasks[taskId := if prNumber > 0 then task.(prNumber := prNumber) else task];
      var row := Run(id, taskId, nextSeq, now, Queued, NoReason, "", prNumber, "", prStatus, headSHA, None, None);
      runs := runs[id := row];
      nextSeq := nextSeq + 1;
    }

    /** The callback rewrites the row; the status change it makes is validated. */
    method UpdateRun(id: RunId, callback: Run -> Run) returns (result: T.UpdateResult)
      requires id in runs ==> var r := callback(runs[id]); r.id == id
      modifies `runs, `tasks
      ensures id !in old(runs) ==> result == T.NotFound && runs == old(runs) && tasks == old(tasks)
      ensures id in old(runs) ==>
                && result == T.UpdateOutcome(old(Db()), callback(old(runs)[id]))
                && Db() == T.UpdateRun(old(Db()), callback(old(runs)[id]))
    {
      if id !in runs {
        return T.NotFound;
      }
      var r := callback(runs[id]);
      if !IsFinal(r.status) {
        r := r.(reason := NoReason);
      }
      if !CanTransition(runs[id].status, r.status) {
        return T.Rejected;
      }
      runs := runs[id := r];
      if r.prNumber > 0 && r.taskId in tasks {
        tasks := tasks[r.taskId := tasks[r.taskId].(prNumber := r.prNumber)];
      }
      result := T.Updated;
    }

    method ClaimRunStart(id: RunId, now: int) returns (claimed: bool)
      requires Valid()
      modifies `runs
      ensures Valid() && claimed == T.CanStart(old(Db()), id)
      ensures Db() == T.ClaimStart(old(Db()), id, now)
    {
      T.ClaimStartKeeps(Db(), id, now);
      claimed := id in runs && runs[id].status == Queued
                 && !exists o :: o in runs && runs[o].taskId == runs[id].taskId && runs[o].status == Running && o != id;
      assert claimed ==> T.CanStart(Db(), id) by {
        assert claimed ==> forall o :: T.RunningFor(Db(), o, runs[id].taskId) ==> o != id;
      }
      assert T.CanStart(Db(), id) ==> claimed by {
        assert forall o :: o in runs && id in runs && runs[o].taskId == runs[id].taskId && runs[o].status == Running
                           ==> T.RunningFor(Db(), o, runs[id].taskId);
      }
      if claimed {
        runs := runs[id := runs[id].(status := Running, error := "", reason := NoReason, startedAt := Some(now))];
      }
    }

    /** The claim's subquery. */
    method EligibleRuns() returns (eligible: set<RunId>)
      ensures eligible == T.EligibleIds(Db())
    {
      var busy := set o | o in runs && runs[o].status == Running :: runs[o].taskId;
      assert forall t :: t in busy <==> T.TaskBusy(Db(), t) by {
        assert forall o, t :: T.RunningFor(Db(), o, t) ==> t in busy;
        forall t | t in busy ensures T.TaskBusy(Db(), t) {
          var o :| o in runs && runs[o].status == Running && runs[o].taskId == t;
          assert T.RunningFor(Db(), o, t);
        }
      }
      eligible := set r | r in runs && runs[r].status == Queued && runs[r].taskId in tasks
                          && (runs[r].prNumber == 0 || !tasks[runs[r].taskId].prDraft)
                          && runs[r].taskId !in busy && r !in cancels;
    }

    /** First a run of the preferred task, then any; both by creation time and number. */
    method SelectNextRun(preferred: TaskId) returns (next: Option<RunId>)
      requires T.WellKeyed(Db())
      ensures next == T.NextRun(Db(), preferred)
    {
      ghost var db := Db();
      var pool := EligibleRuns();
      if preferred != "" {
        var own := set r | r in pool && runs[r].taskId == preferred;
        assert own == T.EligibleIdsOf(db, preferred);
        pool := if own != {} then own else pool;
      }
      if pool == {} {
        return None;
      }
      var id := FirstOf(runs, pool, db);
      T.FirstIsUnique(db, pool, id, T.NextRun(db, preferred).value);
      next := Some(id);
    }

    method ClaimNextQueuedRun(preferred: TaskId, now: int) returns (claimed: Option<RunId>)
      requires Valid()
      modifies `runs
      ensures Valid() && claimed == T.NextRun(old(Db()), preferred)
      ensures Db() == T.ClaimNext(old(Db()), preferred, now)
      ensures claimed.Some? ==> T.Eligible(old(Db()), claimed.value)
    {
      T.ClaimNextKeeps(Db(), preferred, now);
      claimed := SelectNextRun(preferred);
      if claimed.Some? {
        var run := runs[claimed.value];
        runs := runs[run.id := run.(status := Running, error := "", reason := NoReason, startedAt := Some(now))];
      }
    }

    method CancelQueuedRuns(taskId: TaskId, error: string, reason: StatusReason, now: int)
      requires Valid()
      modifies `runs
      ensures Valid() && Db() == T.CancelQueued(old(Db()), taskId, error, reason, now)
    {
      T.CancelQueuedKeeps(Db(), taskId, error, reason, now);
      runs := CanceledRows(runs, taskId, error, reason, now, Db());
    }

    /** Running rows, newest first. */
    method ListRunningRuns() returns (out: seq<Run>)
      requires Valid()
      ensures forall r :: r in out <==> r.id in runs && runs[r.id] == r && r.status == Running
      ensures forall i, j :: 0 <= i < j < |out| ==> out[i].seqNo > out[j].seqNo
    {
      out := NewestFirst(runs, (set id | id in runs && runs[id].status == Running), Db());
    }

    /** The newest `limit` rows, newest first; without a limit, as many as the table may hold. */
    method ListRuns(limit: int) returns (out: seq<Run>)
      requires Valid()
      ensures var most := if limit <= 0 then maxRuns else limit;
              forall r :: r in out <==> r.id in T.TrimOldRuns(runs, most) && runs[r.id] == r
      ensures forall i, j :: 0 <= i < j < |out| ==> out[i].seqNo > out[j].seqNo
    {
      var most := if limit <= 0 then maxRuns else limit;
      out := NewestFirst(runs, T.TrimOldRuns(runs, most).Keys, Db());
    }

    // ---------- cancel requests ----------

    method RequestRunCancel(id: RunId, req: CancelRequest)
      requires Valid()
      modifies `cancels
      ensures Valid() && Db() == T.RequestCancel(old(Db()), id, req)
    {
      cancels := cancels[id := req];
      T.RewrittenRowsKeep(old(Db()), Db());
    }

    method ClearRunCancel(id: RunId)
      requires Valid()
      modifies `cancels
      ensures Valid() && Db() == T.ClearCancel(old(Db()), id)
    {
      cancels := cancels - {id};
      T.RewrittenRowsKeep(old(Db()), Db());
    }

    // ---------- leases and executions ----------

    method UpsertRunLease(id: RunId, owner: InstanceId, now: int, ttl: int)
      requires Valid()
      modifies `leases
      ensures Valid() && Db() == T.UpsertLease(old(Db()), id, owner, now, ttl)
    {
      var effective := if ttl <= 0 then RUN_LEASE_TTL else ttl;
      leases := leases[id := RunLease(owner, now, now + effective)];
      T.RewrittenRowsKeep(old(Db()), Db());
    }

    method DeleteRunLease(id: RunId)
      requires Valid()
      modifies `leases
      ensures Valid() && Db() == T.DeleteLease(old(Db()), id)
    {
      leases := leases - {id};
      T.RewrittenRowsKeep(old(Db()), Db());
    }

    method DeleteRunLeaseForOwner(id: RunId, owner: InstanceId)
      requires Valid()
      modifies `leases
      ensures Valid() && Db() == T.DeleteLeaseFor(old(Db()), id, owner)
    {
      if id in leases && leases[id].owner == owner {
        leases := leases - {id};
      }
      T.RewrittenRowsKeep(old(Db()), Db());
    }

    method UpsertRunExecution(id: RunId, status: ExecutionStatus, exitCode: int)
      requires Valid()
      modifies `execs
      ensures Valid() && Db() == T.UpsertExecution(old(Db()), id, status, exitCode)
    {
      execs := execs[id := Execution(status, exitCode)];
      T.RewrittenRowsKeep(old(Db()), Db());
    }

    function CountRunLeasesByOwner(owner: InstanceId): (n: nat)
      reads `leases
    {
      |LeasesOf(leases, owner)|
    }

    method SetExecution(id: RunId, status: ExecutionStatus, exitCode: int)
      requires Valid()
      modifies `execs
      ensures Valid() && Db() == T.SetExecution(old(Db()), id, status, exitCode)
    {
      if id in execs {
        execs := execs[id := Execution(status, exitCode)];
      }
      T.RewrittenRowsKeep(old(Db()), Db());
    }

    method DeleteRunExecution(id: RunId)
      requires Valid()
      modifies `execs
      ensures Valid() && Db() == T.DeleteExecution(old(Db()), id)
    {
      execs := execs - {id};
      T.RewrittenRowsKeep(old(Db()), Db());
    }

    // ---------- pauses ----------

    method PauseScheduler(scope: string, reason: string, until: int) returns (effective: int)
      requires Valid()
      modifies `pauses
      ensures Valid() && Db() == T.PauseScheduler(old(Db()), scope, reason, until)
      ensures scope in pauses && effective == pauses[scope].until && effective >= until
    {
      if !(scope in pauses && pauses[scope].until > until) {
        pauses := pauses[scope := SchedulerPause(reason, until)];
      }
      effective := pauses[scope].until;
      T.RewrittenRowsKeep(old(Db()), Db());
    }
  }

  function LeasesOf(leases: map<RunId, RunLease>, owner: InstanceId): set<RunId> {
    set id | id in leases && leases[id].owner == owner
  }

  /** The rows that the UPDATE leaves. */
  method CanceledRows(runs: map<RunId, Run>, taskId: TaskId, error: string, reason: StatusReason, now: int,
                      ghost db: T.Tables)
    returns (out: map<RunId, Run>)
    requires db.runs == runs
    ensures out == T.CancelQueued(db, taskId, error, reason, now).runs
  {
    out := map id | id in runs ::
      if runs[id].taskId == taskId && runs[id].status == Queued
      then runs[id].(status := Canceled, error := error, reason := reason, completedAt := Some(now)) else runs[id];
  }

  /** ORDER BY created_at, seq LIMIT 1 */
  method FirstOf(runs: map<RunId, Run>, pool: set<RunId>, ghost db: T.Tables) returns (id: RunId)
    requires T.WellKeyed(db) && db.runs == runs && pool <= runs.Keys && pool != {}
    ensures T.IsFirst(runs, pool, id)
  {
    T.FirstExists(db, pool);
    id :| id in pool && forall o :: o in pool && o != id ==> T.Before(runs[id], runs[o]);
  }

  /** ORDER BY seq DESC */
  method NewestFirst(runs: map<RunId, Run>, ids: set<RunId>, ghost db: T.Tables) returns (out: seq<Run>)
    requires T.WellKeyed(db) && db.runs == runs && ids <= runs.Keys
    ensures forall r :: r in out <==> r.id in ids && runs[r.id] == r
    ensures forall i, j :: 0 <= i < j < |out| ==> out[i].seqNo > out[j].seqNo
  {
    out := [];
    var todo := ids;
    while todo != {}
      invariant todo <= ids
      invariant forall r :: r in out <==> r.id in ids - todo && runs[r.id] == r
      invariant forall i, j :: 0 <= i < j < |out| ==> out[i].seqNo > out[j].seqNo
      invariant forall id :: id in todo && out != [] ==> out[|out| - 1].seqNo > runs[id].seqNo
    {
      T.NewestExists(db, todo);
      var id :| id in todo && T.IsNewest(runs, todo, id);
      out := out + [runs[id]];
      todo := todo - {id};
    }
  }
}
