/** Executing a run, from its pick-up to the start of its supervision. */
module Executing {
  import opened RunTypes
  import opened RunStores
  import opened Scheduling
  import opened Recovering
  import opened Paths
  import opened Servers
  import T = RunTables

  datatype StartAnswer = Started | StartCanceled | StartError

  /** What befalls the launch of one run: which calls fail, a cancel request that slips in while
      the credential is acquired, the runner's answers, and the passes that follow. */
  datatype Launch = Launch(claimFails: bool, leaseFails: bool, credentialFails: bool, cancel: Option<CancelRequest>,
                           sessionFails: bool, persistFails: bool, answers: nat -> StartAnswer, maxAttempts: int,
                           recordFails: bool, at: int, env: nat -> Turn)

  datatype Outcome = Unknown | LeftQueued | Ended | Launched

  /** The runs that ExecuteRun is done with before it writes the run's lease. */
  ghost predicate StopsEarly(d: T.Tables, id: RunId, w: Launch)
    requires id in d.runs
  {
    || id in d.cancels
    || TaskDone(d, d.runs[id].taskId)
    || (d.runs[id].status == Queued && (w.claimFails || T.TaskBusy(d, d.runs[id].taskId)))
    || IsFinal(d.runs[id].status)
    || w.leaseFails
  }

  /** The run is asked to stop, or its task is completed. */
  predicate Moot(d: T.Tables, id: RunId)
    requires id in d.runs
  {
    id in d.cancels || TaskDone(d, d.runs[id].taskId)
  }

  predicate HoldsLease(d: T.Tables, id: RunId, owner: InstanceId) {
    id in d.leases && d.leases[id].owner == owner
  }

  /** Attempt k is the first that does not fail in the ordinary way. */
  ghost predicate Decides(answers: nat -> StartAnswer, max: int, k: nat) {
    k < max && answers(k) != StartError && forall j: nat :: j < k ==> answers(j) == StartError
  }

  /** Some attempt starts the container. */
  ghost predicate Starts(w: Launch) {
    exists k: nat :: Decides(w.answers, if w.maxAttempts <= 0 then 1 else w.maxAttempts, k) && w.answers(k) == Started
  }

  /** What can go wrong once the lease is written. */
  ghost predicate LaunchFails(d: T.Tables, id: RunId, w: Launch) {
    || w.credentialFails || w.cancel.Some? || w.sessionFails
    || (id !in d.execs && (w.persistFails || !Starts(w) || w.recordFails))
  }

  /** The outcome of ExecuteRun, from the tables it starts with. */
  ghost function OutcomeOf(d: T.Tables, id: RunId, w: Launch): Outcome {
    if id !in d.runs then Unknown
    else if id in d.cancels || TaskDone(d, d.runs[id].taskId) || IsFinal(d.runs[id].status) then Ended
    else if d.runs[id].status == Queued && w.claimFails then Ended
    else if d.runs[id].status == Queued && T.TaskBusy(d, d.runs[id].taskId) then LeftQueued
    else if w.leaseFails || LaunchFails(d, id, w) then Ended
    else Launched
  }

  lemma OneLeaseLess(d: T.Tables, d': T.Tables, id: RunId, me: InstanceId)
    requires d' == T.DeleteLeaseFor(d, id, me)
    ensures |LeasesOf(d.leases, me)| <= |LeasesOf(d'.leases, me)| + 1 && T.EligibleIds(d') == T.EligibleIds(d)
  {
    T.SubsetSize(LeasesOf(d.leases, me), LeasesOf(d'.leases, me) + {id});
    assert forall o, t :: T.RunningFor(d', o, t) <==> T.RunningFor(d, o, t);
  }

  const LEASE_FAILED := Ending(RunStatus.Failed, "claim run lease", NoReason)

  /** How a run ends. */
  datatype Ending = Ending(status: RunStatus, error: string, reason: StatusReason)

  /** The end of a run whose launch fails once the lease is written. */
  ghost function EndingUnderLease(w: Launch): Ending {
    if w.credentialFails then Ending(RunStatus.Failed, "acquire credential lease", NoReason)
    else if w.cancel.Some? then Ending(Canceled, w.cancel.value.reason, w.cancel.value.source)
    else if w.sessionFails then Ending(RunStatus.Failed, "persist agent session", NoReason)
    else if !w.persistFails && !Starts(w) then Ending(RunStatus.Failed, "start detached run", NoReason)
    else Ending(RunStatus.Failed, "persist run execution", NoReason)
  }

  /** The end of a run whose container did not start or, if it did, could not be recorded. */
  function StartEnding(started: bool): Ending {
    Ending(RunStatus.Failed, if started then "persist run execution" else "start detached run", NoReason)
  }

  /** The end of a run that ExecuteRun ends. */
  ghost function EndingOf(d: T.Tables, id: RunId, w: Launch): Ending
    requires id in d.runs
  {
    if id in d.cancels then Ending(Canceled, d.cancels[id].reason, d.cancels[id].source)
    else if TaskDone(d, d.runs[id].taskId) then Ending(Canceled, "task is already completed", TaskCompleted)
    else if d.runs[id].status == Queued && w.claimFails then Ending(RunStatus.Failed, "claim run start", NoReason)
    else if w.leaseFails then Ending(RunStatus.Failed, "claim run lease", NoReason)
    else EndingUnderLease(w)
  }

  /** A queued run is started before anything after the claim can go wrong. */
  ghost function Begun(d: T.Tables, id: RunId, w: Launch): Run
    requires id in d.runs
  {
    var r := d.runs[id];
    if r.status == Queued && !Moot(d, id) && !w.claimFails
    then r.(status := Running, error := "", reason := NoReason, startedAt := Some(w.at)) else r
  }

  ghost function FinalRow(d: T.Tables, id: RunId, w: Launch): Run
    requires id in d.runs
  {
    var e := EndingOf(d, id, w);
    if !CanTransition(d.runs[id].status, e.status) || (!Moot(d, id) && IsFinal(d.runs[id].status)) then d.runs[id]
    else T.AtEnd(Begun(d, id, w), e.status, e.error, e.reason, w.at)
  }

  /** Nothing stands in the way before the credential is acquired. */
  ghost predicate LaunchReached(d: T.Tables, id: RunId, w: Launch) {
    && id in d.runs && !Moot(d, id) && !IsFinal(d.runs[id].status)
    && !(d.runs[id].status == Queued && w.claimFails) && !w.leaseFails
  }

  /** The calls of the launch that make it fail. */
  ghost predicate CallFails(d: T.Tables, id: RunId, w: Launch)
    requires id in d.runs
  {
    || (d.runs[id].status == Queued && w.claimFails)
    || w.leaseFails || w.credentialFails
    || (w.cancel.None? && (w.sessionFails || (id !in d.execs && (w.persistFails || !Starts(w) || w.recordFails))))
  }

  /** A run that was not final and is ended is canceled exactly if it was asked to stop or its
      task is completed, or if a request slips in before any call fails; else a call failed. */
  lemma EndsIff(d: T.Tables, id: RunId, w: Launch)
    requires id in d.runs && !IsFinal(d.runs[id].status) && OutcomeOf(d, id, w) == Ended
    ensures EndingOf(d, id, w).status == Canceled <==>
            Moot(d, id) || (w.cancel.Some? && !(d.runs[id].status == Queued && w.claimFails)
                            && !w.leaseFails && !w.credentialFails)
    ensures EndingOf(d, id, w).status == RunStatus.Failed <==> !Moot(d, id) && CallFails(d, id, w)
    ensures EndingOf(d, id, w).status == RunStatus.Failed ==> EndingOf(d, id, w).reason == NoReason
  {
  }

  /** The execution record after a launch: gone if the container did not start, stopping if it
      started and could not be recorded, else untouched or running. */
  ghost predicate RecordAfter(d: T.Tables, d': T.Tables, id: RunId, w: Launch) {
    if w.credentialFails || w.cancel.Some? || w.sessionFails || id in d.execs || w.persistFails then SameExec(d, d', id)
    else if !Starts(w) then id !in d'.execs
    else id in d'.execs && d'.execs[id] == Execution(if w.recordFails then ExecStopping else ExecRunning, 0)
  }

  lemma StartKeepsOthers(d: T.Tables, id: RunId, now: int, since: int)
    ensures OthersKept(d, T.ClaimStart(d, id, now), id, since) && OthersKept(d, d, id, since)
  {
    StartInSteps(d, id, now);
    NothingMoved(d, id, since);
  }

  class Executor {
    const server: Server
    const store: RunStore

    ghost predicate Valid()
      reads this, server, store
    {
      server.store == store && server.Valid()
    }

    constructor (server: Server)
      requires server.Valid()
      ensures Valid() && this.server == server
    {
      this.server := server;
      this.store := server.store;
    }

    /** Tries at least once and at most `maxAttempts` times; a cancellation ends the attempts. */
    method StartDetachedWithRetry(answers: nat -> StartAnswer, maxAttempts: int) returns (started: bool)
      ensures started <==>
              exists k: nat :: Decides(answers, if maxAttempts <= 0 then 1 else maxAttempts, k) && answers(k) == Started
    {
      var max := if maxAttempts <= 0 then 1 else maxAttempts;
      for attempt := 0 to max
        invariant forall j: nat :: j < attempt ==> answers(j) == StartError
      {
        if answers(attempt) != StartError {
          assert Decides(answers, max, attempt);
          return answers(attempt) == Started;
        }
      }
      started := false;
    }

    /** The run ends here: its row, then whatever finishing it brings. */
    method EndRun(id: RunId, to: RunStatus, error: string, reason: StatusReason, w: Launch, ghost since: int)
      requires Valid() && id in store.runs && (to == RunStatus.Failed || to == Canceled) && TurnsSince(w.env, since)
      modifies server`draining, store
      ensures Valid() && EndedWith(old(store.Db()), store.Db(), id, to, error, reason, w.at, since)
      ensures server.CaughtUp(w.env, 0)
    {
      ghost var d0 := store.Db();
      T.TransitionBatchKeeps(d0, id, to, T.NO_PATCH, error, reason, w.at);
      var taskId := store.runs[id].taskId;
      var _ := server.sm.Transition(id, to, error, reason, w.at);
      ghost var claims := server.FinishRun(id, taskId, true, w.at, w.env, since);
      EndThenFinish(d0, store.Db(), id, to, error, reason, w.at, since);
    }

    /** The run ended from its running row, and the queue was served. */
    ghost predicate EndedNow(r: Run, e: Ending, id: RunId, w: Launch)
      reads this, server, store, server.store
    {
      && id in store.runs && store.runs[id] == T.AtEnd(r, e.status, e.error, e.reason, w.at)
      && IsFinal(store.runs[id].status) && id !in store.cancels && server.CaughtUp(w.env, 0)
    }

    /** The same, but for the run's own lease, which went after the queue was served. */
    ghost predicate EndedWithin(r: Run, e: Ending, id: RunId, w: Launch)
      reads this, server, store, server.store
    {
      && id in store.runs && store.runs[id] == T.AtEnd(r, e.status, e.error, e.reason, w.at)
      && IsFinal(store.runs[id].status) && id !in store.cancels && server.CaughtUp(w.env, 1)
    }

    /** With the run running and leased: the credential, the session, the container. */
    method LaunchUnderLease(id: RunId, w: Launch, ghost since: int) returns (launched: bool)
      requires Valid() && id in store.runs
      requires store.runs[id].status == Running && id !in store.cancels && TurnsSince(w.env, since)
      modifies server`draining, store
      ensures Valid() && OthersKept(old(store.Db()), store.Db(), id, since)
              && SameLease(old(store.Db()), store.Db(), id)
      ensures if launched then store.runs[id] == old(store.runs[id]) && id in store.execs
              else EndedNow(old(store.runs[id]), EndingUnderLease(w), id, w)
      ensures id !in store.cancels && launched == !LaunchFails(old(store.Db()), id, w)
      ensures RecordAfter(old(store.Db()), store.Db(), id, w)
    {
      launched := false;
      if w.credentialFails {
        EndRun(id, RunStatus.Failed, "acquire credential lease", NoReason, w, since);
        return;
      }
      if w.cancel.Some? {
        CancelLaunch(id, w.cancel.value, w, since);
        return;
      }
      if w.sessionFails {
        EndRun(id, RunStatus.Failed, "persist agent session", NoReason, w, since);
        return;
      }
      if id in store.execs {
        NothingMoved(store.Db(), id, since);
        return true;
      }
      launched := StartContainer(id, w, since);
    }

    method CancelLaunch(id: RunId, req: CancelRequest, w: Launch, ghost since: int)
      requires Valid() && id in store.runs && store.runs[id].status == Running && TurnsSince(w.env, since)
      modifies server`draining, store
      ensures Valid() && OthersKept(old(store.Db()), store.Db(), id, since)
      ensures SameLease(old(store.Db()), store.Db(), id) && SameExec(old(store.Db()), store.Db(), id)
      ensures EndedNow(old(store.runs[id]), Ending(Canceled, req.reason, req.source), id, w)
    {
      ghost var d0 := store.Db();
      store.RequestRunCancel(id, req);
      ghost var d1 := store.Db();
      RequestInSteps(d0, id, req);
      assert OthersKept(d0, d1, id, since);
      EndRun(id, Canceled, req.reason, req.source, w, since);
      OthersKeptTransitive(d0, d1, store.Db(), id, since);
    }

    /** The execution is recorded before the container starts, so that another instance can
        adopt it, and again once it runs. */
    method StartContainer(id: RunId, w: Launch, ghost since: int) returns (launched: bool)
      requires Valid() && id in store.runs && id !in store.execs && id !in store.cancels && TurnsSince(w.env, since)
      requires store.runs[id].status == Running && !w.credentialFails && w.cancel.None? && !w.sessionFails
      modifies server`draining, store
      ensures Valid() && OthersKept(old(store.Db()), store.Db(), id, since)
              && SameLease(old(store.Db()), store.Db(), id)
      ensures if launched then store.runs[id] == old(store.runs[id])
              else EndedNow(old(store.runs[id]), EndingUnderLease(w), id, w)
      ensures id !in store.cancels && launched == (!w.persistFails && Starts(w) && !w.recordFails)
      ensures RecordAfter(old(store.Db()), store.Db(), id, w)
    {
      ghost var d0 := store.Db();
      if w.persistFails {
        EndRun(id, RunStatus.Failed, "persist run execution", NoReason, w, since);
        return false;
      }
      store.UpsertRunExecution(id, ExecCreated, 0);
      ghost var d1 := store.Db();
      OwnRecordsWritten(d0, d1, id, since);
      launched := RunContainer(id, w, since);
      OthersKeptTransitive(d0, d1, store.Db(), id, since);
    }

    method RunContainer(id: RunId, w: Launch, ghost since: int) returns (launched: bool)
      requires Valid() && id in store.runs && id in store.execs && id !in store.cancels && TurnsSince(w.env, since)
      requires store.runs[id].status == Running
      modifies server`draining, store
      ensures Valid() && OthersKept(old(store.Db()), store.Db(), id, since)
              && SameLease(old(store.Db()), store.Db(), id)
      ensures if launched then store.runs[id] == old(store.runs[id]) && id !in store.cancels
              else EndedNow(old(store.runs[id]), StartEnding(Starts(w)), id, w)
      ensures launched == (Starts(w) && !w.recordFails)
      ensures if !Starts(w) then id !in store.execs
              else id in store.execs
                   && store.execs[id] == Execution(if w.recordFails then ExecStopping else ExecRunning, 0)
    {
      var started := StartDetachedWithRetry(w.answers, w.maxAttempts);
      launched := started && !w.recordFails;
      if launched {
        ghost var d := store.Db();
        store.UpsertRunExecution(id, ExecRunning, 0);
        OwnRecordsWritten(d, store.Db(), id, since);
      } else {
        FailStart(id, started, w, since);
      }
    }

    /** The container did not start, or started and could not be recorded. */
    method FailStart(id: RunId, started: bool, w: Launch, ghost since: int)
      requires Valid() && id in store.runs && store.runs[id].status == Running && TurnsSince(w.env, since)
      requires id in store.execs
      modifies server`draining, store
      ensures Valid() && OthersKept(old(store.Db()), store.Db(), id, since)
              && SameLease(old(store.Db()), store.Db(), id)
      ensures EndedNow(old(store.runs[id]), StartEnding(started), id, w)
      ensures if started then id in store.execs && store.execs[id] == Execution(ExecStopping, 0) else id !in store.execs
    {
      ghost var d0 := store.Db();
      if started {
        store.SetExecution(id, ExecStopping, 0);
      } else {
        store.DeleteRunExecution(id);
      }
      ghost var d1 := store.Db();
      OwnRecordsWritten(d0, d1, id, since);
      var error := if started then "persist run execution" else "start detached run";
      EndRun(id, RunStatus.Failed, error, NoReason, w, since);
      OthersKeptTransitive(d0, d1, store.Db(), id, since);
    }

    /** ExecuteRun ends the run, leaves it queued behind another run of its task, or launches it
        under this instance's lease. A run that ends keeps its lease, and with it one of the
        instance's slots, exactly if it stopped early and was leased: that is the run that was
        claimed with a lease and then found canceled or its task completed. */
    method ExecuteRun(id: RunId, w: Launch, ghost since: int) returns (outcome: Outcome)
      requires Valid() && TurnsSince(w.env, since)
      modifies server`draining, store
      ensures Valid() && OthersKept(old(store.Db()), store.Db(), id, since)
      ensures outcome == OutcomeOf(old(store.Db()), id, w)
      ensures outcome == Unknown || outcome == LeftQueued ==> store.Db() == old(store.Db())
      ensures outcome == LeftQueued ==> store.runs[id].status == Queued && T.TaskBusy(store.Db(), store.runs[id].taskId)
      ensures outcome == Ended ==>
                IsFinal(store.runs[id].status) && id !in store.cancels && server.CaughtUp(w.env, 1)
      ensures outcome == Ended ==>
                store.runs[id] == FinalRow(old(store.Db()), id, w)
      ensures outcome in {Ended, Launched} && LaunchReached(old(store.Db()), id, w) ==>
                RecordAfter(old(store.Db()), store.Db(), id, w)
      ensures id in old(store.runs) ==>
                (HoldsLease(store.Db(), id, server.instance) <==>
                 outcome == Launched || (StopsEarly(old(store.Db()), id, w)
                                         && HoldsLease(old(store.Db()), id, server.instance)))
      ensures outcome == Launched ==>
                && store.runs[id] == Begun(old(store.Db()), id, w) && store.runs[id].status == Running
                && id in store.execs && id !in store.cancels && HoldsLease(store.Db(), id, server.instance)
    {
      NothingMoved(store.Db(), id, since);
      if id !in store.runs {
        return Unknown;
      }
      var stopped := StopEarly(id, w, since);
      if stopped {
        return Ended;
      }
      outcome := ClaimAndLaunch(id, w, since);
    }

    method ClaimAndLaunch(id: RunId, w: Launch, ghost since: int) returns (outcome: Outcome)
      requires Valid() && TurnsSince(w.env, since) && id in store.runs
      requires !Moot(store.Db(), id) && !IsFinal(store.runs[id].status)
      requires store.runs[id].status == Queued ==> !w.claimFails
      modifies server`draining, store
      ensures Valid() && OthersKept(old(store.Db()), store.Db(), id, since)
      ensures outcome == OutcomeOf(old(store.Db()), id, w)
      ensures outcome == LeftQueued ==> store.Db() == old(store.Db())
      ensures outcome == Ended ==>
                && EndedWithin(Begun(old(store.Db()), id, w),
                               if w.leaseFails then LEASE_FAILED else EndingUnderLease(w), id, w)
                && (HoldsLease(store.Db(), id, server.instance) <==>
                    w.leaseFails && HoldsLease(old(store.Db()), id, server.instance))
      ensures outcome != LeftQueued && !w.leaseFails ==> RecordAfter(old(store.Db()), store.Db(), id, w)
      ensures outcome == Launched ==>
                && store.runs[id] == Begun(old(store.Db()), id, w)
                && id in store.execs && id !in store.cancels && HoldsLease(store.Db(), id, server.instance)
    {
      ghost var d0 := store.Db();
      NothingMoved(d0, id, since);
      var running := store.runs[id].status == Running;
      if !running {
        running := store.ClaimRunStart(id, w.at);
      }
      if !running {
        return LeftQueued;
      }
      StartKeepsOthers(d0, id, w.at, since);
      ghost var d1 := store.Db();
      outcome := LeaseAndLaunch(id, w, since);
      OthersKeptTransitive(d0, d1, store.Db(), id, since);
    }

    /** Ends a run that is canceled, moot or final already, or that cannot be claimed. */
    method StopEarly(id: RunId, w: Launch, ghost since: int) returns (stopped: bool)
      requires Valid() && TurnsSince(w.env, since) && id in store.runs
      modifies server`draining, store
      ensures Valid() && OthersKept(old(store.Db()), store.Db(), id, since)
              && SameLease(old(store.Db()), store.Db(), id)
      ensures stopped <==> id in old(store.cancels) || old(TaskDone(store.Db(), store.runs[id].taskId))
                           || (old(store.runs[id].status) == Queued && w.claimFails)
                               || IsFinal(old(store.runs[id].status))
      ensures if stopped then store.runs[id] == FinalRow(old(store.Db()), id, w) && IsFinal(store.runs[id].status)
                              && id !in store.cancels && server.CaughtUp(w.env, 0)
              else store.Db() == old(store.Db())
    {
      var run := store.runs[id];
      stopped := true;
      if id in store.cancels {
        EndRun(id, Canceled, store.cancels[id].reason, store.cancels[id].source, w, since);
      } else if store.IsTaskCompleted(run.taskId) {
        EndRun(id, Canceled, "task is already completed", TaskCompleted, w, since);
      } else if run.status == Queued && w.claimFails {
        EndRun(id, RunStatus.Failed, "claim run start", NoReason, w, since);
      } else if IsFinal(run.status) {
        EndFinished(id, w, since);
      } else {
        stopped := false;
        NothingMoved(store.Db(), id, since);
      }
    }

    method EndFinished(id: RunId, w: Launch, ghost since: int)
      requires Valid() && id in store.runs && IsFinal(store.runs[id].status) && TurnsSince(w.env, since)
      modifies server`draining, store
      ensures Valid() && OthersKept(old(store.Db()), store.Db(), id, since)
              && SameLease(old(store.Db()), store.Db(), id)
      ensures store.runs[id] == old(store.runs[id]) && id !in store.cancels && server.CaughtUp(w.env, 0)
    {
      ghost var d0 := store.Db();
      ClearsOnlyOwn(d0, id, since);
      ghost var claims := server.FinishRun(id, store.runs[id].taskId, true, w.at, w.env, since);
      FinalStays(T.ClearCancel(d0, id), store.Db(), id, since);
      OthersKeptThenMoved(d0, T.ClearCancel(d0, id), store.Db(), id, since);
    }

    method LeaseAndLaunch(id: RunId, w: Launch, ghost since: int) returns (outcome: Outcome)
      requires Valid() && id in store.runs
      requires store.runs[id].status == Running && id !in store.cancels && TurnsSince(w.env, since)
      modifies server`draining, store
      ensures Valid() && OthersKept(old(store.Db()), store.Db(), id, since) && id !in store.cancels
      ensures outcome == if w.leaseFails || LaunchFails(old(store.Db()), id, w) then Ended else Launched
      ensures outcome == Ended ==>
                && EndedWithin(old(store.runs[id]), if w.leaseFails then LEASE_FAILED else EndingUnderLease(w), id, w)
                && (HoldsLease(store.Db(), id, server.instance) <==>
                    w.leaseFails && HoldsLease(old(store.Db()), id, server.instance))
      ensures !w.leaseFails ==> RecordAfter(old(store.Db()), store.Db(), id, w)
      ensures outcome == Launched ==>
                && store.runs[id] == old(store.runs[id]) && id in store.execs
                && HoldsLease(store.Db(), id, server.instance)
    {
      if w.leaseFails {
        EndRun(id, RunStatus.Failed, "claim run lease", NoReason, w, since);
        return Ended;
      }
      ghost var d0 := store.Db();
      store.UpsertRunLease(id, server.instance, w.at, RUN_LEASE_TTL);
      ghost var d1 := store.Db();
      OwnRecordsWritten(d0, d1, id, since);
      outcome := LaunchOrDrop(id, w, since);
      OthersKeptTransitive(d0, d1, store.Db(), id, since);
    }

    /** Drops the lease again when the launch does not get as far as supervision. */
    method LaunchOrDrop(id: RunId, w: Launch, ghost since: int) returns (outcome: Outcome)
      requires Valid() && id in store.runs
      requires store.runs[id].status == Running && id !in store.cancels && TurnsSince(w.env, since)
      requires HoldsLease(store.Db(), id, server.instance)
      modifies server`draining, store
      ensures Valid() && OthersKept(old(store.Db()), store.Db(), id, since) && id !in store.cancels
      ensures outcome == if LaunchFails(old(store.Db()), id, w) then Ended else Launched
      ensures outcome == Ended ==>
                && EndedWithin(old(store.runs[id]), EndingUnderLease(w), id, w)
                && !HoldsLease(store.Db(), id, server.instance)
      ensures RecordAfter(old(store.Db()), store.Db(), id, w)
      ensures outcome == Launched ==>
                && store.runs[id] == old(store.runs[id]) && id in store.execs
                && HoldsLease(store.Db(), id, server.instance)
    {
      ghost var d0 := store.Db();
      var launched := LaunchUnderLease(id, w, since);
      if launched {
        return Launched;
      }
      ghost var d1 := store.Db();
      DropLease(id, d0.runs[id], EndingUnderLease(w), w, since);
      OthersKeptTransitive(d0, d1, store.Db(), id, since);
      outcome := Ended;
    }

    method DropLease(id: RunId, ghost r: Run, ghost e: Ending, w: Launch, ghost since: int)
      requires Valid() && EndedNow(r, e, id, w)
      modifies store`leases
      ensures Valid() && OthersKept(old(store.Db()), store.Db(), id, since) && SameExec(old(store.Db()), store.Db(), id)
      ensures EndedWithin(r, e, id, w) && !HoldsLease(store.Db(), id, server.instance)
    {
      ghost var d := store.Db();
      store.DeleteRunLeaseForOwner(id, server.instance);
      OwnRecordsWritten(d, store.Db(), id, since);
      OneLeaseLess(d, store.Db(), id, server.instance);
    }
  }

  // ---------- the lease that stays ----------

  /** A run that is over for good and still leased. */
  predicate Leaked(d: T.Tables, id: RunId, owner: InstanceId) {
    id in d.runs && IsFinal(d.runs[id].status) && HoldsLease(d, id, owner)
  }

  /** What servers do without a supervisor of run `id`: passes and finished runs, the launch, the
      end or the recovery of another run, startup recovery, and whatever touches no lease. */
  ghost predicate ServerStep(d: T.Tables, d': T.Tables, id: RunId) {
    || (exists since :: QueueMoved(d, d', since))
    || (exists x, since :: x != id && OthersKept(d, d', x, since))
    || (exists requeued, now, world, me :: RecoveryDone(d, d', requeued, now, world, me))
    || (d'.leases == d.leases && id in d'.runs && IsFinal(d'.runs[id].status))
  }

  lemma StepKeepsLeak(d: T.Tables, d': T.Tables, id: RunId, owner: InstanceId)
    requires Leaked(d, id, owner) && ServerStep(d, d', id)
    ensures Leaked(d', id, owner)
  {
    if since :| QueueMoved(d, d', since) {
      assert KeptOrLeft(d, d', id, since);
    } else if x, since :| x != id && OthersKept(d, d', x, since) {
      assert KeptOrLeft(d, d', id, since);
    }
  }

  /** None of that, however often, deletes the lease. */
  lemma {:induction false} LeakIsForever(ds: seq<T.Tables>, id: RunId, owner: InstanceId, k: nat)
    requires k < |ds| && Leaked(ds[0], id, owner)
    requires forall i :: 0 <= i < |ds| - 1 ==> ServerStep(ds[i], ds[i + 1], id)
    ensures Leaked(ds[k], id, owner)
  {
    if k > 0 {
      LeakIsForever(ds, id, owner, k - 1);
      assert ServerStep(ds[k - 1], ds[(k - 1) + 1], id);
      StepKeepsLeak(ds[k - 1], ds[k], id, owner);
    }
  }

  /** Every leaked lease takes one slot: a pass leaves no more other leases than the limit less
      the leaked ones, unless it started with more, and with no slot left it claims nothing. */
  lemma LeaksTakeSlots(start: T.Tables, d: T.Tables, ids: set<RunId>, claims: seq<Run>, preferred: TaskId,
                       me: InstanceId, limit: int, since: int, calm: bool, env: nat -> Turn)
    requires PassLog(start, d, claims, preferred, me, limit, since, calm, env)
    requires forall id :: id in ids ==> Leaked(start, id, me)
    ensures ids <= LeasesOf(start.leases, me) && ids <= LeasesOf(d.leases, me)
    ensures var others, before := |LeasesOf(d.leases, me) - ids|, |LeasesOf(start.leases, me) - ids|;
            others <= before || others <= limit - |ids|
    ensures |ids| >= limit ==> claims == [] && d == start
  {
    PassMovesQueue(start, d, claims, preferred, me, limit, since, calm, env);
    forall id | id in ids
      ensures Leaked(d, id, me)
    {
      StepKeepsLeak(start, d, id, me);
    }
    WithoutSubset(LeasesOf(start.leases, me), ids);
    WithoutSubset(LeasesOf(d.leases, me), ids);
    ClaimsNeedRoom(start, d, claims, preferred, me, limit, env);
  }

  lemma WithoutSubset<X>(all: set<X>, part: set<X>)
    requires part <= all
    ensures |all - part| == |all| - |part|
  {
    assert all == (all - part) + part;
  }

  lemma OnlyRunIsNext(d: T.Tables, id: RunId, me: InstanceId)
    requires T.WellKeyed(d) && id in d.runs && d.runs[id].status == Queued && d.runs[id].prNumber == 0
    requires (forall o :: o in d.runs ==> o == id) && d.cancels == map[] && d.leases == map[]
    ensures T.NextRun(d, "") == Some(id) && id in T.EligibleIds(d) && LeasesOf(d.leases, me) == {}
  {
    assert T.Eligible(d, id) && id in T.EligibleIds(d);
    var next := T.NextRun(d, "");
    assert next.Some? && next.value in T.EligibleIds(d);
  }

  /** A server with one slot that has just claimed its only run. */
  method OneLeasedRun() returns (server: Server, store: RunStore)
    ensures fresh(server) && fresh(store) && server.Valid() && server.store == store
    ensures server.instance == "me" && server.maxConcurrent == 1
    ensures "r" in store.runs && store.runs["r"].status == Running && HoldsLease(store.Db(), "r", "me")
  {
    store := new RunStore(200);
    server := new Server(store, "me", 1);
    var _ := store.AddRun("r", "t", 0, PRNone, "", 1);
    ghost var d := store.Db();
    OnlyRunIsNext(d, "r", "me");
    var _, claim := server.ScheduleOne("", Turn(2, false, false, None, false, 2, false), 0, true);
    assert claim == Some("r");
  }

  /** A concrete case: a server with one slot claims a run, the user cancels it before it is
      executed, and the executed run leaves the server without a slot. */
  method CancelBlocksServer(w: Launch) returns (server: Server, store: RunStore)
    requires TurnsSince(w.env, 0)
    ensures server.Valid() && server.store == store && server.instance == "me"
    ensures Leaked(store.Db(), "r", "me") && store.runs["r"].status == Canceled
    ensures server.ActiveRunCount() >= server.ConcurrencyLimit()
  {
    server, store := OneLeasedRun();
    var executor := new Executor(server);
    store.RequestRunCancel("r", USER_CANCEL);
    var outcome := executor.ExecuteRun("r", w, 0);
    T.SubsetSize({"r"}, LeasesOf(store.leases, "me"));
  }
}
