/** One orchestrator instance: the scheduling pass, the end of a run, startup recovery, and the
    webhook actions that supersede or close a task's runs. */
module Servers {
  import opened RunTypes
  import opened RunStores
  import opened Scheduling
  import opened Recovering
  import opened Paths
  import T = RunTables

  /** Every lookup of a pass falls into a pause and finds it. */
  ghost predicate PausedThroughout(d: T.Tables, env: nat -> Turn) {
    forall i :: T.Paused(d, WORKERS, env(i).now) && !env(i).lookFails
  }

  predicate TaskDone(d: T.Tables, taskId: TaskId) {
    taskId in d.tasks && d.tasks[taskId].completed
  }

  /** The tables when the end of a run comes to its pass. */
  function QueueAfter(d: T.Tables, id: RunId, taskId: TaskId, done: bool, now: int): T.Tables {
    var cleared := if done then T.ClearCancel(d, id) else d;
    if TaskDone(d, taskId)
    then T.CancelQueued(cleared, taskId, "task completed; canceled pending runs", TaskCompleted, now)
    else cleared
  }

  /** What that leaves in the queue: nothing of a completed task; and of an open one all that the
      pass did not claim, as it was. */
  lemma QueueLeft(d: T.Tables, mid: T.Tables, d': T.Tables, id: RunId, taskId: TaskId, done: bool, now: int,
                  claims: seq<Run>, me: InstanceId, limit: int, since: int, env: nat -> Turn)
    requires mid == QueueAfter(d, id, taskId, done, now)
    requires d' == mid || PassLog(mid, d', claims, taskId, me, limit, since, false, env)
    ensures TaskDone(d, taskId) ==>
              forall o :: o in d'.runs && d'.runs[o].taskId == taskId ==> d'.runs[o].status != Queued
    ensures !TaskDone(d, taskId) ==>
              forall o :: o in d.runs && d.runs[o].status == Queued && o !in ClaimedIds(claims) ==>
                            o in d'.runs && d'.runs[o] == d.runs[o]
  {
    if d' != mid {
      assert QueuedIds(d') == QueuedIds(mid) - ClaimedIds(claims);
      forall o | o in mid.runs
        ensures o in d'.runs && PassAt(mid, d', o, me, since, false)
      {
      }
      if !TaskDone(d, taskId) {
        forall o | o in d.runs && d.runs[o].status == Queued && o !in ClaimedIds(claims)
          ensures d'.runs[o] == d.runs[o]
        {
          assert o in QueuedIds(mid) && o in QueuedIds(d');
        }
      }
    }
  }

  lemma StaysPaused(d: T.Tables, env: nat -> Turn, until: int)
    requires WORKERS in d.pauses && d.pauses[WORKERS].until >= until
    ensures NoLookBefore(env, until) ==> PausedThroughout(d, env)
  {
  }

  lemma SamePauses(d: T.Tables, d': T.Tables, env: nat -> Turn)
    requires d'.pauses == d.pauses
    ensures PausedThroughout(d', env) == PausedThroughout(d, env)
  {
    assert forall now :: T.Paused(d', WORKERS, now) == T.Paused(d, WORKERS, now);
  }

  class Server {
    const store: RunStore
    const sm: RunStateMachine
    const instance: InstanceId
    var maxConcurrent: int
    var draining: bool

    ghost predicate Valid()
      reads this, store
    {
      sm.store == store && store.Valid()
    }

    constructor (store: RunStore, instance: InstanceId, maxConcurrent: int)
      requires store.Valid()
      ensures Valid() && this.store == store && this.instance == instance && !draining
      ensures this.maxConcurrent == maxConcurrent
    {
      this.store := store;
      this.instance := instance;
      this.maxConcurrent := maxConcurrent;
      draining := false;
      sm := new RunStateMachine(store);
    }

    function ConcurrencyLimit(): (limit: int)
      reads `maxConcurrent
      ensures limit >= 1 && (maxConcurrent >= 1 ==> limit == maxConcurrent)
    {
      if maxConcurrent > 0 then maxConcurrent else 1
    }

    function ActiveRunCount(): nat
      reads store`leases
    {
      store.CountRunLeasesByOwner(instance)
    }

    // ---------- the scheduling pass ----------

    /** The pass. `env(i)` is what happens around its i-th iteration; `claims` are the rows it
        claimed, as they were when it selected them. It terminates because every iteration that
        goes on takes one run out of the queue. */
    method ScheduleRuns(preferred: TaskId, env: nat -> Turn, ghost since: int, ghost calm: bool)
      returns (ghost claims: seq<Run>, ghost stop: Stop)
      requires Valid()
      requires forall i :: since <= env(i).now <= env(i).leaseAt && (calm ==> Calm(env(i)))
      modifies `draining, store
      ensures Valid() && (old(draining) ==> draining) && (calm ==> draining == old(draining))
      ensures PassLog(old(store.Db()), store.Db(), claims, preferred, instance, ConcurrencyLimit(), since, calm, env)
      // paused throughout, it claims nothing
      ensures PausedThroughout(old(store.Db()), env) ==> store.Db() == old(store.Db())
      // work conserving: it leaves room and an eligible run behind only for one of these reasons
      ensures CaughtUp(env, 0)
      ensures exists i :: Explains(stop, env(i), old(store.Db()))
    {
      claims := [];
      ghost var start := store.Db();
      ghost var limit := ConcurrencyLimit();
      PassStarts(start, preferred, instance, limit, since, calm);
      if draining {
        stop := Draining;
        assert Explains(Draining, env(0), start);
        return;
      }
      var i := 0;
      while true
        invariant Valid() && |claims| == i && limit == ConcurrencyLimit()
        invariant (old(draining) ==> draining) && (calm ==> draining == old(draining))
        invariant PassLog(start, store.Db(), claims, preferred, instance, limit, since, calm, env)
        invariant i == 0 ==> store.Db() == start
        invariant PausedThroughout(start, env) ==> i == 0
        decreases QueuedIds(store.Db())
      {
        ghost var ended;
        var goesOn;
        goesOn, ended, claims := NextTurn(preferred, env, i, start, claims, since, calm);
        if !goesOn {
          stop := ended;
          StopIsExcused(stop, env, i, start);
          return;
        }
        i := i + 1;
      }
    }

    /** Iteration `i` of the loop, with what it adds to the log. */
    method NextTurn(preferred: TaskId, env: nat -> Turn, i: nat, ghost start: T.Tables, ghost before: seq<Run>,
                    ghost since: int, ghost calm: bool)
      returns (goesOn: bool, ghost stop: Stop, ghost claims: seq<Run>)
      requires Valid() && since <= env(i).now <= env(i).leaseAt && (calm ==> Calm(env(i)))
      requires |before| == i && (i == 0 ==> store.Db() == start)
      requires PassLog(start, store.Db(), before, preferred, instance, ConcurrencyLimit(), since, calm, env)
      modifies `draining, store
      ensures Valid() && (old(draining) ==> draining) && (calm ==> draining == old(draining))
      ensures PassLog(start, store.Db(), claims, preferred, instance, ConcurrencyLimit(), since, calm, env)
      ensures goesOn ==> |claims| == i + 1 && QueuedIds(store.Db()) < QueuedIds(old(store.Db()))
      ensures T.Paused(old(store.Db()), WORKERS, env(i).now) && !env(i).lookFails ==>
                !goesOn && store.Db() == old(store.Db())
      ensures !goesOn ==> Explains(stop, env(i), start)
    {
      ghost var d, limit := store.Db(), ConcurrencyLimit();
      var turn := env(i);
      var ended, claim := ScheduleOne(PreferredAt(preferred, i), turn, since, calm);
      goesOn := ended.None?;
      claims := NextLog(start, d, store.Db(), before, preferred, claim, instance, limit, since, calm, env);
      stop := if ended.Some? then ended.value else NothingEligible;
    }

    /** The pass may stop for this reason. */
    ghost predicate Explains(stop: Stop, turn: Turn, start: T.Tables)
      reads this, store
    {
      match stop
      case Draining => draining
      case PausedWorkers => T.Paused(start, WORKERS, turn.now)
      case AtCapacity => ActiveRunCount() >= ConcurrencyLimit()
      case StoreError => turn.claimFails
      case NothingEligible => T.EligibleIds(store.Db()) == {}
    }

    lemma StopIsExcused(stop: Stop, env: nat -> Turn, i: nat, start: T.Tables)
      requires Explains(stop, env(i), start) && start.pauses == store.pauses
      ensures CaughtUp(env, 0)
    {
    }

    /** One iteration of the loop. `None` means the loop goes on with the claimed run handled. */
    method ScheduleOne(preferred: TaskId, turn: Turn, ghost since: int, ghost calm: bool)
      returns (stop: Option<Stop>, ghost claim: Option<RunId>)
      requires Valid() && since <= turn.now <= turn.leaseAt && (calm ==> Calm(turn))
      modifies `draining, store
      ensures Valid() && draining == (old(draining) || (claim.Some? && turn.drains && turn.cancel.None?))
      ensures TurnDone(old(store.Db()), store.Db(), preferred, turn, claim, instance, ConcurrencyLimit(), since, calm)
      ensures if claim.None? then stop.Some? else stop.Some? ==> stop == Some(Draining)
      ensures match stop
              case None => true
              case Some(Draining) => draining
              case Some(PausedWorkers) => T.Paused(old(store.Db()), WORKERS, turn.now)
              case Some(AtCapacity) => ActiveRunCount() >= ConcurrencyLimit()
              case Some(StoreError) => turn.claimFails
              case Some(NothingEligible) => T.EligibleIds(store.Db()) == {}
    {
      if !turn.lookFails && WORKERS in store.pauses && store.pauses[WORKERS].until > turn.now {
        return Some(PausedWorkers), None;
      }
      if ActiveRunCount() >= ConcurrencyLimit() {
        return Some(AtCapacity), None;
      }
      if draining {
        return Some(Draining), None;
      }
      if turn.claimFails {
        return Some(StoreError), None;
      }
      ghost var before := store.Db();
      var claimed := store.ClaimNextQueuedRun(preferred, turn.now);
      claim := claimed;
      if claimed.None? {
        return Some(NothingEligible), None;
      }
      stop := HandleClaimed(claimed.value, turn, before, preferred, since, calm);
    }

    method EndClaimed(run: RunId, to: RunStatus, error: string, reason: StatusReason, now: int,
                      ghost before: T.Tables, ghost preferred: TaskId, ghost since: int, ghost calm: bool)
      requires Valid() && (to == Failed || (to == Canceled && !calm))
      requires T.WellKeyed(before) && T.NextRun(before, preferred) == Some(run) && T.Eligible(before, run)
      requires store.Db() == T.ClaimNext(before, preferred, now)
      modifies store`runs, store`tasks
      ensures ClaimHandled(before, store.Db(), run, instance, since, calm) && store.runs[run].status == to
      ensures store.Db() == T.Transition(old(store.Db()), run, to, error, reason, now)
    {
      EndedClaimRow(before, preferred, run, to, error, reason, now);
      var _ := sm.Transition(run, to, error, reason, now);
      EndedClaim(before, preferred, run, to, error, reason, now, instance, since, calm);
    }

    method LeaseClaimed(run: RunId, turn: Turn, ghost before: T.Tables, ghost preferred: TaskId, ghost since: int,
                        ghost calm: bool)
      requires Valid() && since <= turn.leaseAt && (calm ==> Calm(turn))
      requires T.WellKeyed(before) && T.NextRun(before, preferred) == Some(run) && T.Eligible(before, run)
      requires store.Db() == T.ClaimNext(before, preferred, turn.now)
      modifies store`leases
      ensures ClaimHandled(before, store.Db(), run, instance, since, calm) && store.runs[run].status == Running
      ensures store.Db() == T.UpsertLease(old(store.Db()), run, instance, turn.leaseAt, RUN_LEASE_TTL)
    {
      LeasedClaim(before, preferred, run, turn.now, instance, since, turn.leaseAt, calm);
      store.UpsertRunLease(run, instance, turn.leaseAt, RUN_LEASE_TTL);
    }

    /** What the iteration does with the run it claimed: cancel it if a request slipped in or the
        server drains, fail it if its lease cannot be written, else leave it running. */
    method HandleClaimed(run: RunId, turn: Turn, ghost before: T.Tables, ghost preferred: TaskId, ghost since: int,
                         ghost calm: bool)
      returns (stop: Option<Stop>)
      requires Valid() && !draining && since <= turn.leaseAt && (calm ==> Calm(turn))
      requires T.WellKeyed(before) && T.NextRun(before, preferred) == Some(run) && T.Eligible(before, run)
      requires store.Db() == T.ClaimNext(before, preferred, turn.now)
      modifies `draining, store
      ensures draining == (turn.drains && turn.cancel.None?)
      ensures ClaimHandled(before, store.Db(), run, instance, since, calm) && store.runs[run].status == ResultOf(turn)
      ensures store.Db() == AfterTurn(old(store.Db()), run, turn, instance)
      ensures stop.Some? ==> stop == Some(Draining) && draining
    {
      if turn.cancel.Some? {
        var req := turn.cancel.value;
        CancelClaimed(run, req, turn.now, before, preferred, since, calm);
        return None;
      }
      draining := draining || turn.drains;
      if draining {
        EndClaimed(run, Canceled, "orchestrator shutting down", Shutdown, turn.now, before, preferred, since, calm);
        return Some(Draining);
      }
      if turn.leaseFails {
        EndClaimed(run, Failed, "claim run lease", NoReason, turn.now, before, preferred, since, calm);
        return None;
      }
      LeaseClaimed(run, turn, before, preferred, since, calm);
      stop := None;
    }

    method CancelClaimed(run: RunId, req: CancelRequest, now: int, ghost before: T.Tables, ghost preferred: TaskId,
                         ghost since: int, ghost calm: bool)
      requires Valid() && !calm
      requires T.WellKeyed(before) && T.NextRun(before, preferred) == Some(run) && T.Eligible(before, run)
      requires store.Db() == T.ClaimNext(before, preferred, now)
      modifies store
      ensures ClaimHandled(before, store.Db(), run, instance, since, calm) && store.runs[run].status == Canceled
      ensures store.Db() == T.ClearCancel(T.Transition(T.RequestCancel(old(store.Db()), run, req), run, Canceled,
                                                       req.reason, req.source, now), run)
    {
      EndedClaimRow(before, preferred, run, Canceled, req.reason, req.source, now);
      RequestActedOn(store.Db(), run, req, now);
      store.RequestRunCancel(run, req);
      var _ := sm.Transition(run, Canceled, req.reason, req.source, now);
      store.ClearRunCancel(run);
      EndedClaim(before, preferred, run, Canceled, req.reason, req.source, now, instance, since, calm);
    }

    // ---------- the end of a run ----------

    /** What the end of a run brings, `done` telling whether the caller's snapshot of it was final:
        its request goes, the queue of a completed task is canceled, and a pass follows unless
        the server is draining. */
    method FinishRun(id: RunId, taskId: TaskId, done: bool, now: int, env: nat -> Turn, ghost since: int)
      returns (ghost claims: seq<Run>)
      requires Valid() && TurnsSince(env, since)
      modifies `draining, store
      ensures Valid()
      ensures QueueMoved(if done then T.ClearCancel(old(store.Db()), id) else old(store.Db()), store.Db(), since)
      ensures var before := QueueAfter(old(store.Db()), id, taskId, done, now);
              if old(draining) then claims == [] && store.Db() == before
              else PassLog(before, store.Db(), claims, taskId, instance, ConcurrencyLimit(), since, false, env)
      ensures TaskDone(old(store.Db()), taskId) ==>
                forall o :: o in store.runs && store.runs[o].taskId == taskId ==> store.runs[o].status != Queued
      ensures !TaskDone(old(store.Db()), taskId) ==>
                forall o :: o in old(store.runs) && old(store.runs[o].status) == Queued && o !in ClaimedIds(claims) ==>
                              store.runs[o] == old(store.runs[o])
      ensures CaughtUp(env, 0)
      ensures store.pauses == old(store.pauses)
      ensures PausedThroughout(old(store.Db()), env) ==>
                store.Db() == QueueAfter(old(store.Db()), id, taskId, done, now)
    {
      ghost var d0 := store.Db();
      ClearAndCancel(id, taskId, done, now, since);
      ghost var d1 := store.Db();
      SamePauses(d0, d1, env);
      claims := ScheduleAfter(taskId, env, since);
      QueueMovedTransitive(if done then T.ClearCancel(d0, id) else d0, d1, store.Db(), since);
      QueueLeft(d0, d1, store.Db(), id, taskId, done, now, claims, instance, ConcurrencyLimit(), since, env);
    }

    method ClearAndCancel(id: RunId, taskId: TaskId, done: bool, now: int, ghost since: int)
      requires Valid()
      modifies store`runs, store`cancels
      ensures Valid()
      ensures QueueMoved(if done then T.ClearCancel(old(store.Db()), id) else old(store.Db()), store.Db(), since)
      ensures store.Db() == QueueAfter(old(store.Db()), id, taskId, done, now)
    {
      if done {
        store.ClearRunCancel(id);
      }
      ghost var d := store.Db();
      NothingMoved(d, id, since);
      if store.IsTaskCompleted(taskId) {
        CancelQueuedMovesQueue(d, taskId, "task completed; canceled pending runs", TaskCompleted, now, since);
        store.CancelQueuedRuns(taskId, "task completed; canceled pending runs", TaskCompleted, now);
      }
    }

    /** No eligible run waits without one of these reasons: the server drains, it has no room but
        for `spare` leases, a lookup of the pass found a pause, or the store failed. */
    ghost predicate CaughtUp(env: nat -> Turn, spare: nat)
      reads this, store
    {
      || draining
      || ActiveRunCount() + spare >= ConcurrencyLimit()
      || (exists i :: env(i).claimFails || T.Paused(store.Db(), WORKERS, env(i).now))
      || T.EligibleIds(store.Db()) == {}
    }

    /** A pass, unless the server is draining. */
    method ScheduleAfter(taskId: TaskId, env: nat -> Turn, ghost since: int) returns (ghost claims: seq<Run>)
      requires Valid() && TurnsSince(env, since)
      modifies `draining, store
      ensures Valid() && QueueMoved(old(store.Db()), store.Db(), since)
      ensures if old(draining) then claims == [] && store.Db() == old(store.Db())
              else PassLog(old(store.Db()), store.Db(), claims, taskId, instance, ConcurrencyLimit(), since, false, env)
      ensures CaughtUp(env, 0)
      ensures store.pauses == old(store.pauses)
      ensures PausedThroughout(old(store.Db()), env) ==> store.Db() == old(store.Db())
    {
      ghost var d := store.Db();
      NothingMoved(d, "", since);
      claims := [];
      if !draining {
        ghost var stop;
        claims, stop := ScheduleRuns(taskId, env, since, false);
        PassMovesQueue(d, store.Db(), claims, taskId, instance, ConcurrencyLimit(), since, false, env);
      }
    }

    method CleanupDetachedExecution(id: RunId)
      requires Valid()
      modifies store`execs, store`leases
      ensures Valid() && store.Db() == CleanedUp(old(store.Db()), id)
    {
      store.DeleteRunExecution(id);
      store.DeleteRunLease(id);
    }

    /** A run whose container is gone ends as failed. */
    method FailRunForMissingExecution(id: RunId, w: World, ghost since: int)
      requires Valid() && id in store.runs && TurnsSince(w.env, since)
      modifies `draining, store
      ensures Valid() && OthersKept(old(store.Db()), store.Db(), id, since)
      ensures IsFinal(store.runs[id].status) && Bare(store.Db(), id) && CaughtUp(w.env, 0)
      ensures store.runs[id] == EndedOrKept(old(store.runs[id]), Failed, "detached container missing during adoption",
                                            NoReason, w.at)
    {
      ghost var d0 := store.Db();
      EndingKeepsOthers(d0, id, Failed, T.NO_PATCH, "detached container missing during adoption", NoReason, w.at,
                        since);
      var _ := sm.Transition(id, Failed, "detached container missing during adoption", NoReason, w.at);
      CleanUpKeepsOthers(d0, store.Db(), id, since);
      ghost var ended := T.ClearCancel(CleanedUp(store.Db(), id), id);
      EndAndFinish(id, w, since);
      OthersKeptThenMoved(d0, ended, store.Db(), id, since);
    }

    /** The common tail: drop the execution and the lease of a run that is final by now, then
        finish it. */
    method EndAndFinish(id: RunId, w: World, ghost since: int)
      requires Valid() && id in store.runs && IsFinal(store.runs[id].status) && TurnsSince(w.env, since)
      modifies `draining, store
      ensures Valid() && CaughtUp(w.env, 0)
      ensures QueueMoved(T.ClearCancel(CleanedUp(old(store.Db()), id), id), store.Db(), since)
      ensures id in store.runs && store.runs[id] == old(store.runs[id]) && Bare(store.Db(), id)
    {
      CleanupDetachedExecution(id);
      ghost var d1 := store.Db();
      ghost var claims := FinishRun(id, store.runs[id].taskId, true, w.at, w.env, since);
      FinalStays(T.ClearCancel(d1, id), store.Db(), id, since);
    }

    /** A usage limit pauses all workers and puts the run back; any other result makes it final. */
    method FinalizeDetachedRun(id: RunId, w: World, ghost since: int)
      requires Valid() && TurnsSince(w.env, since)
      modifies `draining, store
      ensures Valid() && OthersKept(old(store.Db()), store.Db(), id, since)
      ensures Recovered(store.Db(), id, since) && (id in old(store.runs) ==> CaughtUp(w.env, 0))
      ensures id in old(store.runs) && old(store.runs[id].status) == Running ==>
                ResultActedOn(w, old(store.runs[id]), old(RequestOf(store.Db(), id)), store.Db(), id, since)
      ensures id in old(store.runs) && old(store.runs[id].status) == Queued && !Limited(w) ==>
                FinishedInQueue(w.meta, old(store.runs[id]), old(RequestOf(store.Db(), id)), w.at, store.runs[id])
      ensures id in old(store.runs) && !IsFinal(old(store.runs[id].status)) && Limited(w) ==>
                && WORKERS in store.pauses && store.pauses[WORKERS].until >= w.retryAt.value
                && QueuedAgain(old(store.runs[id]), store.Db(), id, since)
                && (NoLookBefore(w.env, w.retryAt.value) ==> store.runs[id].status != Running)
      ensures id in old(store.runs) && IsFinal(old(store.runs[id].status)) ==>
                store.runs[id] == old(store.runs[id]) && Bare(store.Db(), id)
      ensures id !in old(store.runs) ==> store.Db() == CleanedUp(old(store.Db()), id)
    {
      ghost var d0 := store.Db();
      NothingMoved(d0, id, since);
      if id !in store.runs {
        CleanUpKeepsOthers(d0, d0, id, since);
        CleanupDetachedExecution(id);
        return;
      }
      var run := store.runs[id];
      if IsFinal(run.status) {
        CleanUpKeepsOthers(d0, d0, id, since);
        ghost var d1 := T.ClearCancel(CleanedUp(d0, id), id);
        EndAndFinish(id, w, since);
        OthersKeptThenMoved(d0, d1, store.Db(), id, since);
        return;
      }
      if (w.meta.exitCode != 0 || w.meta.error != "") && w.retryAt.Some? {
        RequeueAfterUsageLimit(id, w, since);
        return;
      }
      EndByVerdict(id, w, since);
    }

    /** The result of the execution becomes the run's status, unless a request to cancel a
        failed run is pending. */
    method EndByVerdict(id: RunId, w: World, ghost since: int)
      requires Valid() && TurnsSince(w.env, since) && id in store.runs && !IsFinal(store.runs[id].status)
      modifies `draining, store
      ensures Valid() && OthersKept(old(store.Db()), store.Db(), id, since)
      ensures id in store.runs && IsFinal(store.runs[id].status) && Bare(store.Db(), id) && CaughtUp(w.env, 0)
      ensures old(store.runs[id].status) == Running ==>
                EndedByResult(w.meta, old(store.runs[id]), old(RequestOf(store.Db(), id)), w.at, store.runs[id])
      ensures old(store.runs[id].status) == Queued ==>
                FinishedInQueue(w.meta, old(store.runs[id]), old(RequestOf(store.Db(), id)), w.at, store.runs[id])
    {
      ghost var d0 := store.Db();
      SetVerdict(id, w, since);
      CleanUpKeepsOthers(d0, store.Db(), id, since);
      ghost var ended := T.ClearCancel(CleanedUp(store.Db(), id), id);
      EndAndFinish(id, w, since);
      OthersKeptThenMoved(d0, ended, store.Db(), id, since);
    }

    method SetVerdict(id: RunId, w: World, ghost since: int)
      requires Valid() && id in store.runs && !IsFinal(store.runs[id].status)
      modifies store`runs, store`tasks
      ensures Valid() && OthersKept(old(store.Db()), store.Db(), id, since)
      ensures id in store.runs && IsFinal(store.runs[id].status)
      ensures old(store.runs[id].status) == Running ==>
                EndedByResult(w.meta, old(store.runs[id]), RequestOf(store.Db(), id), w.at, store.runs[id])
      ensures old(store.runs[id].status) == Queued ==>
                FinishedInQueue(w.meta, old(store.runs[id]), RequestOf(store.Db(), id), w.at, store.runs[id])
    {
      var run := store.runs[id];
      var cancel := if id in store.cancels then Some(store.cancels[id]) else None;
      var status, prStatus, error, reason := Judge(w.meta, run, cancel, w.at);
      var patch := T.PRPatch(w.meta.prNumber, w.meta.prURL, w.meta.headSHA, Some(prStatus));
      FinalBatch(store.Db(), id, status, patch, error, reason, w.at, since);
      var result := sm.TransitionBatch(id, status, patch, error, reason, w.at);
      if result != T.Updated {
        // only a run that was put back in the queue meanwhile gets here
        FailQueued(id, w, since);
      }
    }

    method Judge(m: RunMeta, run: Run, cancel: Option<CancelRequest>, ghost now: int)
      returns (status: RunStatus, prStatus: PRStatus, error: string, reason: StatusReason)
      ensures IsFinal(status)
      ensures var patched := T.Patched(run, T.PRPatch(m.prNumber, m.prURL, m.headSHA, Some(prStatus)));
              EndedByResult(m, run, cancel, now, T.AtEnd(patched, status, error, reason, now))
    {
      status, prStatus, error, reason := Succeeded, PRNone, "", NoReason;
      if m.exitCode != 0 || m.error != "" {
        status, error := Failed, if m.error != "" then m.error else "docker runner failed";
      } else if m.prNumber > 0 || m.prURL != "" || run.prNumber > 0 || run.prURL != "" {
        status, prStatus := Review, PROpen;
      }
      if cancel.Some? && status == Failed {
        // explains a stopped execution, never overrides a success
        status, error, reason := Canceled, cancel.value.reason, cancel.value.source;
      }
    }

    method FailQueued(id: RunId, w: World, ghost since: int)
      requires Valid() && id in store.runs && store.runs[id].status == Queued
      modifies store`runs, store`tasks
      ensures Valid() && OthersKept(old(store.Db()), store.Db(), id, since)
      ensures id in store.runs
      ensures store.runs[id] == T.AtEnd(old(store.runs[id]), Failed, "invalid run status transition", NoReason, w.at)
    {
      EndingKeepsOthers(store.Db(), id, Failed, T.NO_PATCH, "invalid run status transition", NoReason, w.at, since);
      var _ := sm.Transition(id, Failed, "invalid run status transition", NoReason, w.at);
    }

    method RequeueAfterUsageLimit(id: RunId, w: World, ghost since: int)
      requires Valid() && TurnsSince(w.env, since)
      requires id in store.runs && !IsFinal(store.runs[id].status) && w.retryAt.Some?
      modifies `draining, store
      ensures Valid() && OthersKept(old(store.Db()), store.Db(), id, since)
      ensures Recovered(store.Db(), id, since) && CaughtUp(w.env, 0)
      ensures WORKERS in store.pauses && store.pauses[WORKERS].until >= w.retryAt.value
      ensures QueuedAgain(old(store.runs[id]), store.Db(), id, since)
      // no pass before the deadline picks the run up again
      ensures NoLookBefore(w.env, w.retryAt.value) ==> store.runs[id].status != Running
    {
      ghost var d0 := store.Db();
      PauseAndRequeue(id, w.retryAt.value, since);
      ghost var d1 := store.Db();
      StaysPaused(d1, w.env, w.retryAt.value);
      ghost var claims := FinishRun(id, store.runs[id].taskId, false, w.at, w.env, since);
      OthersKeptThenMoved(d0, d1, store.Db(), id, since);
      RecoveredStaysWhenMoved(d1, store.Db(), since, id, since);
      QueuedAgainStays(d0.runs[id], d1, store.Db(), id, since);
    }

    /** From here on no pass claims the run until the deadline. */
    method PauseAndRequeue(id: RunId, retryAt: int, ghost since: int)
      requires Valid() && id in store.runs && !IsFinal(store.runs[id].status)
      modifies store`runs, store`tasks, store`pauses, store`execs, store`leases
      ensures Valid() && OthersKept(old(store.Db()), store.Db(), id, since)
      ensures id in store.runs && store.runs[id].status == Queued && id !in store.leases
      ensures QueuedAgain(old(store.runs[id]), store.Db(), id, since)
      ensures WORKERS in store.pauses && store.pauses[WORKERS].until >= retryAt
    {
      ghost var d0 := store.Db();
      var until := store.PauseScheduler(WORKERS, "provider usage limit", retryAt);
      ghost var d1 := store.Db();
      PauseInSteps(d0, "provider usage limit", retryAt);
      assert OthersKept(d0, d1, id, since);
      PutBackAndCleaned(d1, id, since);
      var _ := sm.Requeue(id);
      CleanupDetachedExecution(id);
      OthersKeptTransitive(d0, d1, store.Db(), id, since);
    }

    // ---------- startup recovery ----------

    method RecoverDetachedRun(id: RunId, w: World, ghost since: int)
      requires Valid() && id in store.runs && id in store.execs && TurnsSince(w.env, since)
      modifies `draining, store
      ensures Valid() && OthersKept(old(store.Db()), store.Db(), id, since)
      ensures Recovered(store.Db(), id, since)
      ensures old(store.runs[id].status) == Running ==>
                DetachedDone(old(store.Db()), store.Db(), id, w, instance, since)
    {
      match w.seen
      case NotFound =>
        FailRunForMissingExecution(id, w, since);
      case InspectFailed =>
        AdoptRun(id, w, since);
      case StillRunning =>
        AdoptRunning(id, w, since);
      case Exited(exitCode) =>
        FinalizeExited(id, exitCode, w, since);
    }

    method AdoptRunning(id: RunId, w: World, ghost since: int)
      requires Valid() && id in store.runs && id in store.execs
      modifies store`leases, store`execs
      ensures Valid() && OthersKept(old(store.Db()), store.Db(), id, since) && Recovered(store.Db(), id, since)
      ensures store.runs == old(store.runs)
      ensures Adopted(old(store.Db()), store.Db(), id, w, instance) && store.execs[id] == Execution(ExecRunning, 0)
    {
      ghost var d0 := store.Db();
      store.SetExecution(id, ExecRunning, 0);
      AdoptRun(id, w, since);
      OwnRecordsWritten(d0, store.Db(), id, since);
    }

    method FinalizeExited(id: RunId, exitCode: int, w: World, ghost since: int)
      requires Valid() && id in store.runs && TurnsSince(w.env, since)
      modifies `draining, store
      ensures Valid() && OthersKept(old(store.Db()), store.Db(), id, since)
      ensures Recovered(store.Db(), id, since) && CaughtUp(w.env, 0)
      ensures old(store.runs[id].status) == Running ==>
                ResultActedOn(w, old(store.runs[id]), old(RequestOf(store.Db(), id)), store.Db(), id, since)
    {
      ghost var d0 := store.Db();
      store.SetExecution(id, ExecExited, exitCode);
      ghost var d1 := store.Db();
      OwnRecordsWritten(d0, d1, id, since);
      FinalizeDetachedRun(id, w, since);
      OthersKeptTransitive(d0, d1, store.Db(), id, since);
    }

    /** The supervisor that then starts runs on its own. */
    method AdoptRun(id: RunId, w: World, ghost since: int)
      requires Valid() && id in store.runs && id in store.execs
      modifies store`leases
      ensures Valid() && OthersKept(old(store.Db()), store.Db(), id, since) && Recovered(store.Db(), id, since)
      ensures store.runs == old(store.runs) && Adopted(old(store.Db()), store.Db(), id, w, instance)
    {
      ghost var d0 := store.Db();
      if !w.leaseFails {
        store.UpsertRunLease(id, instance, w.at, RUN_LEASE_TTL);
      }
      OwnRecordsWritten(d0, store.Db(), id, since);
    }

    method CancelRecovered(id: RunId, w: World, ghost since: int)
      requires Valid() && id in store.runs && store.runs[id].status == Running && id in store.cancels
      modifies store`runs, store`tasks, store`cancels
      ensures Valid() && OthersKept(old(store.Db()), store.Db(), id, since) && id !in store.cancels
      ensures id in store.runs && var req := old(store.cancels[id]);
              store.runs[id] == T.AtEnd(old(store.runs[id]), Canceled, req.reason, req.source, w.at)
    {
      ghost var d0 := store.Db();
      var req := store.cancels[id];
      EndingKeepsOthers(d0, id, Canceled, T.NO_PATCH, req.reason, req.source, w.at, since);
      var _ := sm.Transition(id, Canceled, req.reason, req.source, w.at);
      CleanUpKeepsOthers(d0, store.Db(), id, since);
      store.ClearRunCancel(id);
    }

    /** One listed run. `requeued` tells that it was put back in the queue for want of a lease. */
    method RecoverOne(run: Run, now: int, w: World) returns (ghost requeued: bool)
      requires Valid() && run.id in store.runs
      requires store.runs[run.id] == run && run.status == Running && TurnsSince(w.env, now)
      modifies `draining, store
      ensures Valid() && OthersKept(old(store.Db()), store.Db(), run.id, now)
      ensures RecoveredOne(old(store.Db()), store.Db(), run.id, requeued, now, w, instance)
    {
      requeued := false;
      var id := run.id;
      NothingMoved(store.Db(), id, now);
      if id in store.execs {
        RecoverDetachedRun(id, w, now);
        return;
      }
      if id in store.cancels {
        CancelRecovered(id, w, now);
        return;
      }
      if id in store.leases && store.leases[id].expiresAt > now {
        return;
      }
      if id !in store.leases && run.startedAt.Some? && run.startedAt.value > now - RUN_LEASE_TTL {
        return;
      }
      PutBackInQueue(id, now);
      requeued := true;
    }

    /** Drops the expired lease, if there is one. */
    method PutBackInQueue(id: RunId, ghost since: int)
      requires Valid() && id in store.runs && store.runs[id].status == Running
      modifies store`runs, store`tasks, store`leases
      ensures Valid() && OthersKept(old(store.Db()), store.Db(), id, since)
      ensures id in store.runs && store.runs[id].status == Queued
      ensures id !in old(store.execs) ==> QueuedAgain(old(store.runs[id]), store.Db(), id, since)
    {
      ghost var d0 := store.Db();
      store.DeleteRunLease(id);
      ghost var d1 := store.Db();
      OwnRecordsWritten(d0, d1, id, since);
      RequeueKeepsOthers(d1, id, since);
      var _ := sm.Requeue(id);
      OthersKeptTransitive(d0, d1, store.Db(), id, since);
    }

    /** Goes through the running runs once. */
    method RecoverRunningRuns(now: int, world: RunId -> World) returns (ghost requeued: set<RunId>)
      requires Valid() && AllTurnsSince(world, now)
      modifies `draining, store
      ensures Valid() && RecoveryDone(old(store.Db()), store.Db(), requeued, now, world, instance)
    {
      ghost var d0 := store.Db();
      var runs := store.ListRunningRuns();
      SweepStarts(d0, runs, now, world, instance);
      requeued := RecoverListed(runs, now, world, d0);
      SweepEnds(d0, store.Db(), runs, requeued, now, world, instance);
    }

    method RecoverListed(runs: seq<Run>, now: int, world: RunId -> World, ghost d0: T.Tables)
      returns (ghost requeued: set<RunId>)
      requires Valid() && SweptSoFar(d0, store.Db(), runs, 0, {}, now, world, instance) && AllTurnsSince(world, now)
      modifies `draining, store
      ensures Valid() && SweptSoFar(d0, store.Db(), runs, |runs|, requeued, now, world, instance)
    {
      requeued := {};
      for i := 0 to |runs|
        invariant Valid() && SweptSoFar(d0, store.Db(), runs, i, requeued, now, world, instance)
      {
        requeued := RecoverNext(runs, i, now, world, d0, requeued);
      }
    }

    method RecoverNext(runs: seq<Run>, i: nat, now: int, world: RunId -> World, ghost d0: T.Tables,
                       ghost before: set<RunId>)
      returns (ghost requeued: set<RunId>)
      requires Valid() && i < |runs| && AllTurnsSince(world, now)
      requires SweptSoFar(d0, store.Db(), runs, i, before, now, world, instance)
      modifies `draining, store
      ensures Valid() && SweptSoFar(d0, store.Db(), runs, i + 1, requeued, now, world, instance)
    {
      ghost var d := store.Db();
      RestOfList(d0, runs, i);
      assert SweptRun(d0, d, runs, i, runs[i].id in before, now, runs[i].id, world(runs[i].id), instance);
      ghost var back := RecoverOne(runs[i], now, world(runs[i].id));
      SweepContinues(d0, d, store.Db(), runs, i, before, back, now, world, instance);
      requeued := if back then before + {runs[i].id} else before;
    }
  }
}
