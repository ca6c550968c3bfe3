/** Canceling a run on request, and the startup sweep over requests whose run is still queued. */
module Cancels {
  import opened RunTypes
  import opened RunStores
  import opened Scheduling
  import opened Recovering
  import opened Servers
  import opened Paths
  import T = RunTables

  datatype Answer = RunNotFound | AlreadyCompleted | PersistFailed | CancelDone | CancelRequested

  // ---------- the sweep ----------

  /** The row of a queued run after its request was acted on. */
  function SweptRow(r: Run, cancels: map<RunId, CancelRequest>, now: int): Run {
    if r.status == Queued && r.id in cancels
    then T.TransitionRow(r, Canceled, cancels[r.id].reason, cancels[r.id].source, now) else r
  }

  /** What the sweep makes of one run and its request. */
  predicate SweptAt(d: T.Tables, d': T.Tables, reached: bool, id: RunId, now: int) {
    var acts := reached && id in d.runs && d.runs[id].status == Queued && id in d.cancels;
    && (id in d'.runs <==> id in d.runs)
    && (id in d.runs ==> d'.runs[id] == if reached then SweptRow(d.runs[id], d.cancels, now) else d.runs[id])
    && (id in d'.cancels <==> id in d.cancels && !acts)
    && (id in d'.cancels ==> d'.cancels[id] == d.cancels[id])
  }

  /** The tables after the sweep reached the runs `ids`. */
  ghost predicate SweptRuns(d: T.Tables, d': T.Tables, ids: set<RunId>, now: int) {
    && InSteps(d, d')
    && SameTaskFlags(d, d')
    && d' == d.(runs := d'.runs, tasks := d'.tasks, cancels := d'.cancels)
    && forall id :: SweptAt(d, d', id in ids, id, now)
  }

  lemma CanceledRow(d: T.Tables, id: RunId, error: string, reason: StatusReason, now: int)
    requires T.WellKeyed(d) && id in d.runs && d.runs[id].status == Queued
    ensures var d' := T.Transition(d, id, Canceled, error, reason, now);
            && InSteps(d, d') && InSteps(d, T.ClearCancel(d', id))
            && d'.runs == d.runs[id := T.TransitionRow(d.runs[id], Canceled, error, reason, now)]
            && SameTaskFlags(d, d') && d' == d.(runs := d'.runs, tasks := d'.tasks)
  {
    var d' := T.Transition(d, id, Canceled, error, reason, now);
    TransitionInSteps(d, id, Canceled, T.NO_PATCH, error, reason, now);
    ClearInSteps(d', id);
    InMoreSteps(d, d', T.ClearCancel(d', id));
  }

  lemma SweepsOne(d: T.Tables, mid: T.Tables, d': T.Tables, ids: set<RunId>, id: RunId, now: int)
    requires SweptRuns(d, mid, ids, now) && id !in ids
    requires id in d.runs && d.runs[id].id == id && d.runs[id].status == Queued && id in d.cancels
    requires id in mid.runs && InSteps(mid, d')
    requires d'.runs == mid.runs[id := T.TransitionRow(mid.runs[id], Canceled, d.cancels[id].reason,
                                                       d.cancels[id].source, now)]
    requires SameTaskFlags(mid, d') && d' == mid.(runs := d'.runs, tasks := d'.tasks, cancels := mid.cancels - {id})
    ensures SweptRuns(d, d', ids + {id}, now)
  {
    InMoreSteps(d, mid, d');
    assert SweptAt(d, mid, id in ids, id, now);
    forall o
      ensures SweptAt(d, d', o in ids + {id}, o, now)
    {
      assert SweptAt(d, mid, o in ids, o, now);
    }
  }

  lemma SkipsOne(d: T.Tables, mid: T.Tables, ids: set<RunId>, id: RunId, now: int)
    requires SweptRuns(d, mid, ids, now) && id in d.runs && d.runs[id].id == id
    requires d.runs[id].status != Queued || id !in d.cancels
    ensures SweptRuns(d, mid, ids + {id}, now)
  {
    forall o
      ensures SweptAt(d, mid, o in ids + {id}, o, now)
    {
      assert SweptAt(d, mid, o in ids, o, now);
    }
  }

  ghost function IdsFrom(runs: seq<Run>, i: int): set<RunId>
    requires 0 <= i <= |runs|
  {
    set k | i <= k < |runs| :: runs[k].id
  }

  /** No listed run is left queued with a request pending. */
  lemma NothingLeftWaiting(d: T.Tables, d': T.Tables, now: int, id: RunId)
    requires T.WellKeyed(d) && SweptRuns(d, d', T.TrimOldRuns(d.runs, T.LISTED).Keys, now)
    requires id in T.TrimOldRuns(d'.runs, T.LISTED) && d'.runs[id].status == Queued
    ensures id !in d'.cancels
  {
    forall o
      ensures o in d'.runs <==> o in d.runs
      ensures o in d.runs ==> d'.runs[o].seqNo == d.runs[o].seqNo
    {
      assert SweptAt(d, d', o in T.TrimOldRuns(d.runs, T.LISTED).Keys, o, now);
    }
    T.NumbersDecideTrim(d.runs, d'.runs, T.LISTED);
    assert SweptAt(d, d', id in T.TrimOldRuns(d.runs, T.LISTED).Keys, id, now);
  }

  /** The request, and the execution marked as stopping. */
  method AskToStop(store: RunStore, id: RunId, req: CancelRequest)
    requires store.Valid() && id in store.runs
    modifies store`cancels, store`execs
    ensures store.Valid() && InSteps(old(store.Db()), store.Db())
    ensures var asked := T.RequestCancel(old(store.Db()), id, req);
            store.Db() == if id in asked.execs
                          then T.SetExecution(asked, id, ExecStopping, asked.execs[id].exitCode) else asked
  {
    ghost var d0 := store.Db();
    store.RequestRunCancel(id, req);
    ghost var d1 := store.Db();
    RequestInSteps(d0, id, req);
    if id in store.execs {
      store.SetExecution(id, ExecStopping, store.execs[id].exitCode);
    }
    LeasesInSteps(d1, store.Db());
    InMoreSteps(d0, d1, store.Db());
  }

  class CancelHandler {
    const server: Server
    const store: RunStore

    ghost predicate Valid()
      reads this, server, store
    {
      server.store == store && server.Valid()
    }

    constructor (server: Server)
      requires server.Valid()
      ensures Valid() && this.server == server
    {
      this.server := server;
      this.store := server.store;
    }

    /** Oldest first. */
    method RecoverQueuedCancels(now: int)
      requires Valid()
      modifies store`runs, store`tasks, store`cancels
      ensures Valid() && SweptRuns(old(store.Db()), store.Db(), T.TrimOldRuns(old(store.runs), T.LISTED).Keys, now)
    {
      ghost var d0 := store.Db();
      InNoSteps(d0);
      var runs := store.ListRuns(T.LISTED);
      var i := |runs| - 1;
      while i >= 0
        invariant -1 <= i < |runs| && Valid() && SweptRuns(d0, store.Db(), IdsFrom(runs, i + 1), now)
      {
        assert runs[i] in runs && runs[i].id !in IdsFrom(runs, i + 1);
        assert IdsFrom(runs, i) == IdsFrom(runs, i + 1) + {runs[i].id};
        SweepRun(runs[i], now, d0, IdsFrom(runs, i + 1));
        i := i - 1;
      }
      assert IdsFrom(runs, 0) == T.TrimOldRuns(d0.runs, T.LISTED).Keys by {
        forall id | id in T.TrimOldRuns(d0.runs, T.LISTED) ensures id in IdsFrom(runs, 0) {
          assert d0.runs[id] in runs;
        }
      }
    }

    method SweepRun(run: Run, now: int, ghost d0: T.Tables, ghost ids: set<RunId>)
      requires Valid() && SweptRuns(d0, store.Db(), ids, now) && run.id !in ids
      requires run.id in d0.runs && d0.runs[run.id] == run
      modifies store`runs, store`tasks, store`cancels
      ensures Valid() && SweptRuns(d0, store.Db(), ids + {run.id}, now)
    {
      var id := run.id;
      ghost var mid := store.Db();
      assert SweptAt(d0, mid, false, id, now);
      if run.status == Queued && id in store.cancels {
        var req := store.cancels[id];
        CanceledRow(mid, id, req.reason, req.source, now);
        var _ := server.sm.Transition(id, Canceled, req.reason, req.source, now);
        store.ClearRunCancel(id);
        SweepsOne(d0, mid, store.Db(), ids, id, now);
      } else {
        SkipsOne(d0, mid, ids, id, now);
      }
    }

    /** A queued run is canceled at once, a running one is asked to stop. A run in review is
        asked too, and keeps the request. */
    method HandleCancelRun(id: RunId, persistFails: bool, now: int, env: nat -> Turn) returns (answer: Answer)
      requires Valid() && TurnsSince(env, now)
      modifies server`draining, store
      ensures Valid() && InSteps(old(store.Db()), store.Db())
      ensures answer == if id !in old(store.runs) then RunNotFound
                        else if old(store.runs[id].status) in {Succeeded, RunStatus.Failed, Canceled}
                        then AlreadyCompleted
                        else if persistFails then PersistFailed
                        else if old(store.runs[id].status) == Queued then CancelDone else CancelRequested
      ensures answer == RunNotFound || answer == PersistFailed ==> store.Db() == old(store.Db())
      ensures answer == AlreadyCompleted ==> store.Db() == T.ClearCancel(old(store.Db()), id)
      ensures answer == CancelRequested ==>
                var asked := T.RequestCancel(old(store.Db()), id, USER_CANCEL);
                store.Db() == if id in asked.execs
                          then T.SetExecution(asked, id, ExecStopping, asked.execs[id].exitCode) else asked
      ensures answer == CancelDone ==>
                && store.runs.Keys == old(store.runs.Keys) && id !in store.cancels
                && store.runs[id] == T.AtEnd(old(store.runs[id]), Canceled, "canceled by user", NoReason, now)
                && OthersKept(old(store.Db()), store.Db(), id, now) && server.CaughtUp(env, 0)
    {
      InNoSteps(store.Db());
      if id !in store.runs {
        return RunNotFound;
      }
      var run := store.runs[id];
      if run.status == Succeeded || run.status == RunStatus.Failed || run.status == Canceled {
        ClearInSteps(store.Db(), id);
        store.ClearRunCancel(id);
        return AlreadyCompleted;
      }
      if persistFails {
        return PersistFailed;
      }
      if run.status == Queued {
        CancelQueuedRun(run, now, env);
        return CancelDone;
      }
      AskToStop(store, id, USER_CANCEL);
      answer := CancelRequested;
    }

    /** The request is recorded before the run is canceled, so that a crash in between does not
        lose it. */
    method CancelQueuedRun(run: Run, now: int, env: nat -> Turn)
      requires Valid() && TurnsSince(env, now)
      requires run.id in store.runs && store.runs[run.id] == run && run.status == Queued
      modifies server`draining, store
      ensures Valid() && store.runs.Keys == old(store.runs.Keys) && run.id !in store.cancels
      ensures store.runs[run.id] == T.AtEnd(run, Canceled, "canceled by user", NoReason, now)
      ensures OthersKept(old(store.Db()), store.Db(), run.id, now) && server.CaughtUp(env, 0)
    {
      var id := run.id;
      ghost var d0 := store.Db();
      OwnRequestLeavesNoTrace(d0, id, USER_CANCEL, Canceled, USER_CANCEL.reason, NoReason, now);
      store.RequestRunCancel(id, USER_CANCEL);
      CancelAsRecorded(run, now);
      ghost var claims := server.ScheduleAfter(run.taskId, env, now);
      EndThenFinish(d0, store.Db(), id, Canceled, USER_CANCEL.reason, NoReason, now, now);
    }

    method CancelAsRecorded(run: Run, now: int)
      requires Valid() && run.id in store.runs && store.runs[run.id] == run && run.status == Queued
      requires run.id in store.cancels && store.cancels[run.id] == USER_CANCEL
      modifies store`runs, store`tasks, store`cancels
      ensures Valid()
      ensures var canceled := T.Transition(old(store.Db()), run.id, Canceled, "canceled by user", NoReason, now);
              store.Db() == T.ClearCancel(canceled, run.id)
    {
      var _ := server.sm.Transition(run.id, Canceled, USER_CANCEL.reason, NoReason, now);
      store.ClearRunCancel(run.id);
    }
  }
}
