/** What ending one run may do to the others, and what startup recovery promises. */
module Recovering {
  import opened RunTypes
  import opened RunStores
  import opened Scheduling
  import opened Paths
  import TurnRuns
  import T = RunTables

  /** How the runner answers when asked about a detached execution. */
  datatype Inspection = NotFound | InspectFailed | StillRunning | Exited(exitCode: int)

  /** The result a finished execution reported. */
  datatype RunMeta = RunMeta(exitCode: int, error: string, prNumber: nat, prURL: string, headSHA: string)

  /** Everything recovery of one run learns from outside the store. `retryAt` is the deadline
      read from a usage-limit error, if the error is one. */
  datatype World = World(seen: Inspection, leaseFails: bool, meta: RunMeta, retryAt: Option<int>, at: int,
                         env: nat -> Turn)

  ghost predicate TurnsSince(env: nat -> Turn, since: int) {
    forall i :: since <= env(i).now <= env(i).leaseAt
  }

  /** The execution ran into the provider's usage limit. */
  predicate Limited(w: World) {
    (w.meta.exitCode != 0 || w.meta.error != "") && w.retryAt.Some?
  }

  /** Every pass that follows looks for a pause before `until`, and its lookup works. */
  ghost predicate NoLookBefore(env: nat -> Turn, until: int) {
    forall i :: env(i).now < until && !env(i).lookFails
  }

  ghost predicate AllTurnsSince(world: RunId -> World, since: int) {
    forall id :: TurnsSince(world(id).env, since)
  }

  /** Just claimed: running under a lease written after `since`, with no request pending. */
  predicate JustClaimed(d: T.Tables, id: RunId, since: int) {
    && id in d.runs && d.runs[id].status == Running
    && id in d.leases && d.leases[id].expiresAt >= since + RUN_LEASE_TTL
    && id !in d.cancels
  }

  predicate SameFacts(d: T.Tables, d': T.Tables, id: RunId) {
    && id in d.runs && id in d'.runs && d'.runs[id] == d.runs[id]
    && SameLease(d, d', id) && SameExec(d, d', id)
    && RequestOf(d', id) == RequestOf(d, id)
  }

  predicate SameExec(d: T.Tables, d': T.Tables, id: RunId) {
    (id in d.execs <==> id in d'.execs) && (id in d.execs ==> d'.execs[id] == d.execs[id])
  }

  function RequestOf(d: T.Tables, id: RunId): Option<CancelRequest> {
    if id in d.cancels then Some(d.cancels[id]) else None
  }

  /** A run in the queue may leave it: canceled, failed, or claimed by the pass that follows. */
  predicate LeftQueue(d: T.Tables, d': T.Tables, id: RunId, since: int) {
    && id in d.runs && id in d'.runs && d.runs[id].status == Queued && SameExec(d, d', id)
    && (d'.runs[id].status == Canceled || d'.runs[id].status == Failed || JustClaimed(d', id, since))
  }

  predicate KeptOrLeft(d: T.Tables, d': T.Tables, id: RunId, since: int) {
    SameFacts(d, d', id) || LeftQueue(d, d', id, since)
  }

  /** Nothing happened but runs leaving the queue, in single statements. */
  ghost predicate QueueMoved(d: T.Tables, d': T.Tables, since: int) {
    && InSteps(d, d')
    && d'.runs.Keys == d.runs.Keys
    && forall id :: id in d.runs ==> KeptOrLeft(d, d', id, since)
  }

  /** ... except perhaps to run `x`. */
  ghost predicate OthersKept(d: T.Tables, d': T.Tables, x: RunId, since: int) {
    && InSteps(d, d')
    && d'.runs.Keys == d.runs.Keys
    && forall id :: id in d.runs && id != x ==> KeptOrLeft(d, d', id, since)
  }

  lemma NothingMoved(d: T.Tables, x: RunId, since: int)
    ensures QueueMoved(d, d, since) && OthersKept(d, d, x, since)
  {
    InNoSteps(d);
  }

  /** Leases and executions alone were written, and only those of run `x`. */
  lemma OwnRecordsWritten(d: T.Tables, d': T.Tables, x: RunId, since: int)
    requires d' == d.(leases := d'.leases, execs := d'.execs)
    requires forall id :: id in d.runs && id != x ==> SameLease(d, d', id) && SameExec(d, d', id)
    ensures OthersKept(d, d', x, since)
  {
    LeasesInSteps(d, d');
  }

  lemma KeptOrLeftTransitive(d: T.Tables, mid: T.Tables, d': T.Tables, id: RunId, since: int)
    requires KeptOrLeft(d, mid, id, since) && KeptOrLeft(mid, d', id, since)
    ensures KeptOrLeft(d, d', id, since)
  {
  }

  /** A run that is final stays as it is. */
  lemma FinalStays(d: T.Tables, d': T.Tables, id: RunId, since: int)
    requires QueueMoved(d, d', since) && id in d.runs && IsFinal(d.runs[id].status)
    ensures SameFacts(d, d', id)
  {
    assert KeptOrLeft(d, d', id, since);
  }

  lemma QueueMovedTransitive(d: T.Tables, mid: T.Tables, d': T.Tables, since: int)
    requires QueueMoved(d, mid, since) && QueueMoved(mid, d', since)
    ensures QueueMoved(d, d', since)
  {
    InMoreSteps(d, mid, d');
    forall id | id in d.runs ensures KeptOrLeft(d, d', id, since) {
      KeptOrLeftTransitive(d, mid, d', id, since);
    }
  }

  lemma OthersKeptTransitive(d: T.Tables, mid: T.Tables, d': T.Tables, x: RunId, since: int)
    requires OthersKept(d, mid, x, since) && OthersKept(mid, d', x, since)
    ensures OthersKept(d, d', x, since)
  {
    InMoreSteps(d, mid, d');
    forall id | id in d.runs && id != x ensures KeptOrLeft(d, d', id, since) {
      KeptOrLeftTransitive(d, mid, d', id, since);
    }
  }

  lemma OthersKeptThenMoved(d: T.Tables, mid: T.Tables, d': T.Tables, x: RunId, since: int)
    requires OthersKept(d, mid, x, since) && QueueMoved(mid, d', since)
    ensures OthersKept(d, d', x, since)
  {
    InMoreSteps(d, mid, d');
    forall id | id in d.runs && id != x ensures KeptOrLeft(d, d', id, since) {
      KeptOrLeftTransitive(d, mid, d', id, since);
    }
  }

  lemma PassMovesQueue(d: T.Tables, d': T.Tables, claims: seq<Run>, preferred: TaskId, me: InstanceId, limit: int,
                       since: int, calm: bool, env: nat -> Turn)
    requires PassLog(d, d', claims, preferred, me, limit, since, calm, env)
    ensures QueueMoved(d, d', since)
  {
    TurnRuns.PassInSteps(d, d', claims, preferred, me, limit, env);
    forall id | id in d.runs ensures KeptOrLeft(d, d', id, since) {
      PassKeepsOrTakes(d, d', id, me, since, calm);
    }
  }

  lemma PassKeepsOrTakes(d: T.Tables, d': T.Tables, id: RunId, me: InstanceId, since: int, calm: bool)
    requires PassFrame(d, d', me, since, calm) && id in d.runs
    ensures KeptOrLeft(d, d', id, since)
  {
    assert PassAt(d, d', id, me, since, calm);
  }

  lemma CancelQueuedMovesQueue(d: T.Tables, taskId: TaskId, error: string, reason: StatusReason, now: int, since: int)
    ensures QueueMoved(d, T.CancelQueued(d, taskId, error, reason, now), since)
  {
    CancelQueuedInSteps(d, taskId, error, reason, now);
  }

  /** Recovery's promise for one run, judged at time `now`. */
  predicate Recovered(d: T.Tables, id: RunId, now: int) {
    id in d.runs && d.runs[id].status == Running && id !in d.execs ==>
      && id !in d.cancels
      && (if id in d.leases then d.leases[id].expiresAt > now
          else d.runs[id].startedAt.Some? && d.runs[id].startedAt.value > now - RUN_LEASE_TTL)
  }

  lemma RecoveredStays(d: T.Tables, d': T.Tables, x: RunId, since: int, id: RunId, now: int)
    requires OthersKept(d, d', x, since) && id != x && Recovered(d, id, now) && now <= since
    ensures Recovered(d', id, now)
  {
    if id in d.runs {
      assert KeptOrLeft(d, d', id, since);
    }
  }

  lemma RecoveredStaysWhenMoved(d: T.Tables, d': T.Tables, since: int, id: RunId, now: int)
    requires QueueMoved(d, d', since) && Recovered(d, id, now) && now <= since
    ensures Recovered(d', id, now)
  {
    if id in d.runs {
      assert KeptOrLeft(d, d', id, since);
    }
  }

  function CleanedUp(d: T.Tables, x: RunId): T.Tables {
    T.DeleteLease(T.DeleteExecution(d, x), x)
  }

  lemma OneRowWritten(d: T.Tables, d': T.Tables, x: RunId, since: int)
    requires InSteps(d, d') && d' == d.(runs := d'.runs, tasks := d'.tasks)
    requires d'.runs == d.runs || (x in d.runs && x in d'.runs && d'.runs == d.runs[x := d'.runs[x]])
    ensures OthersKept(d, d', x, since)
  {
  }

  lemma EndingKeepsOthers(d: T.Tables, x: RunId, to: RunStatus, patch: T.PRPatch, error: string,
                          reason: StatusReason, now: int, since: int)
    requires IsFinal(to)
    ensures OthersKept(d, T.TransitionBatch(d, x, to, patch, error, reason, now), x, since)
  {
    TransitionInSteps(d, x, to, patch, error, reason, now);
    OneRowWritten(d, T.TransitionBatch(d, x, to, patch, error, reason, now), x, since);
  }

  lemma CleanUpKeepsOthers(d: T.Tables, mid: T.Tables, x: RunId, since: int)
    requires OthersKept(d, mid, x, since)
    ensures OthersKept(d, CleanedUp(mid, x), x, since)
    ensures NoLiveRequest(mid, x) ==>
              && OthersKept(d, T.ClearCancel(CleanedUp(mid, x), x), x, since)
              && OthersKept(d, T.ClearCancel(mid, x), x, since)
  {
    var cleaned := CleanedUp(mid, x);
    CleansOnlyOwn(mid, x, since);
    OthersKeptTransitive(d, mid, cleaned, x, since);
    if NoLiveRequest(mid, x) {
      ClearsOnlyOwn(mid, x, since);
      ClearsOnlyOwn(cleaned, x, since);
      OthersKeptTransitive(d, cleaned, T.ClearCancel(cleaned, x), x, since);
      OthersKeptTransitive(d, mid, T.ClearCancel(mid, x), x, since);
    }
  }

  /** There is no request for the run, or none that still matters. */
  predicate NoLiveRequest(d: T.Tables, x: RunId) {
    x !in d.cancels || (x in d.runs && IsFinal(d.runs[x].status))
  }

  lemma CleansOnlyOwn(d: T.Tables, x: RunId, since: int)
    ensures OthersKept(d, CleanedUp(d, x), x, since)
  {
    LeasesInSteps(d, CleanedUp(d, x));
  }

  lemma ClearsOnlyOwn(d: T.Tables, x: RunId, since: int)
    requires NoLiveRequest(d, x)
    ensures OthersKept(d, T.ClearCancel(d, x), x, since)
  {
    ClearInSteps(d, x);
  }

  // ---------- a run that is ended, then finished ----------

  /** The row of a run that is asked to end, if the transition is allowed; a row that is over stays. */
  function EndedOrKept(r: Run, to: RunStatus, error: string, reason: StatusReason, now: int): Run {
    if CanTransition(r.status, to) then T.AtEnd(r, to, error, reason, now) else r
  }

  /** A failed or canceled row, whatever it was before. */
  lemma EndedRow(d: T.Tables, id: RunId, to: RunStatus, error: string, reason: StatusReason, now: int)
    requires T.Inv(d) && id in d.runs && (to == Failed || to == Canceled)
    ensures var d' := T.ClearCancel(T.Transition(d, id, to, error, reason, now), id);
            && id in d'.runs && IsFinal(d'.runs[id].status) && id !in d'.cancels
            && SameLease(d, d', id) && SameExec(d, d', id)
            && d'.runs[id] == EndedOrKept(d.runs[id], to, error, reason, now)
  {
  }

  /** What ending a run amounts to once it has been finished. */
  ghost predicate EndedWith(d: T.Tables, d': T.Tables, id: RunId, to: RunStatus, error: string,
                            reason: StatusReason, now: int, since: int)
  {
    && id in d.runs && OthersKept(d, d', id, since) && id in d'.runs
    && IsFinal(d'.runs[id].status) && id !in d'.cancels && SameLease(d, d', id) && SameExec(d, d', id)
    && d'.runs[id] == EndedOrKept(d.runs[id], to, error, reason, now)
  }

  lemma EndThenFinish(d: T.Tables, d': T.Tables, id: RunId, to: RunStatus, error: string, reason: StatusReason,
                      now: int, since: int)
    requires T.Inv(d) && id in d.runs && (to == Failed || to == Canceled)
    requires QueueMoved(T.ClearCancel(T.Transition(d, id, to, error, reason, now), id), d', since)
    ensures EndedWith(d, d', id, to, error, reason, now, since)
  {
    var ended := T.ClearCancel(T.Transition(d, id, to, error, reason, now), id);
    EndedRow(d, id, to, error, reason, now);
    EndingAloneKeepsOthers(d, id, to, error, reason, now, since);
    OthersKeptThenMoved(d, ended, d', id, since);
    FinalStays(ended, d', id, since);
  }

  lemma EndingAloneKeepsOthers(d: T.Tables, id: RunId, to: RunStatus, error: string, reason: StatusReason, now: int,
                               since: int)
    requires T.Inv(d) && id in d.runs && (to == Failed || to == Canceled)
    ensures OthersKept(d, T.ClearCancel(T.Transition(d, id, to, error, reason, now), id), id, since)
  {
    EndedRow(d, id, to, error, reason, now);
    EndingKeepsOthers(d, id, to, T.NO_PATCH, error, reason, now, since);
    CleanUpKeepsOthers(d, T.Transition(d, id, to, error, reason, now), id, since);
  }

  lemma RequestsDoNotMatter(d: T.Tables, cancels: map<RunId, CancelRequest>, id: RunId, to: RunStatus, error: string,
                            reason: StatusReason, now: int)
    ensures T.Transition(d.(cancels := cancels), id, to, error, reason, now)
            == T.Transition(d, id, to, error, reason, now).(cancels := cancels)
    ensures T.Transition(d, id, to, error, reason, now).cancels == d.cancels
  {
    if id in d.runs {
      UpdateIgnoresRequests(d, cancels, T.BatchRow(d.runs[id], id, to, T.NO_PATCH, error, reason, now));
    }
  }

  lemma UpdateIgnoresRequests(d: T.Tables, cancels: map<RunId, CancelRequest>, r: Run)
    ensures T.UpdateRun(d.(cancels := cancels), r) == T.UpdateRun(d, r).(cancels := cancels)
    ensures T.UpdateRun(d, r).cancels == d.cancels
  {
  }

  /** A request that is made, acted on and cleared leaves the same as none. */
  lemma OwnRequestLeavesNoTrace(d: T.Tables, id: RunId, req: CancelRequest, to: RunStatus, error: string,
                                reason: StatusReason, now: int)
    ensures T.ClearCancel(T.Transition(T.RequestCancel(d, id, req), id, to, error, reason, now), id)
            == T.ClearCancel(T.Transition(d, id, to, error, reason, now), id)
  {
    RequestsDoNotMatter(d, d.cancels[id := req], id, to, error, reason, now);
    assert d.cancels[id := req] - {id} == d.cancels - {id};
  }

  lemma RequeueKeepsOthers(d: T.Tables, x: RunId, since: int)
    ensures OthersKept(d, T.Requeue(d, x), x, since)
  {
    RequeueInSteps(d, x);
    OneRowWritten(d, T.Requeue(d, x), x, since);
  }

  /** A run put back in the queue, with its execution and its lease dropped. */
  lemma PutBackAndCleaned(d: T.Tables, id: RunId, since: int)
    requires T.Inv(d) && id in d.runs && !IsFinal(d.runs[id].status)
    ensures var d' := CleanedUp(T.Requeue(d, id), id);
            && OthersKept(d, d', id, since) && id in d'.runs && d'.runs[id].status == Queued
            && QueuedAgain(d.runs[id], d', id, since) && id !in d'.leases && d'.pauses == d.pauses
  {
    var back := T.Requeue(d, id);
    assert back.runs == d.runs[id := back.runs[id]];
    RequeueKeepsOthers(d, id, since);
    CleansOnlyOwn(back, id, since);
    OthersKeptTransitive(d, back, CleanedUp(back, id), id, since);
  }

  /** What the result of an execution makes of the row `r` of a running run, with the cancel
      request that is pending: each status is for one case, a pull request is open exactly in
      review, and what the result says of the pull request is carried over. */
  ghost predicate EndedByResult(m: RunMeta, r: Run, cancel: Option<CancelRequest>, now: int, r': Run) {
    var failed := m.exitCode != 0 || m.error != "";
    var hasPR := m.prNumber > 0 || m.prURL != "" || r.prNumber > 0 || r.prURL != "";
    && (r'.status == Succeeded <==> !failed && !hasPR)
    && (r'.status == Review <==> !failed && hasPR)
    && (r'.status == Failed <==> failed && cancel.None?)
    && (r'.status == Canceled <==> failed && cancel.Some?)
    && (!failed ==> r'.error == "")
    && (failed ==> r'.error == if cancel.Some? then cancel.value.reason
                               else if m.error != "" then m.error else "docker runner failed")
    && r'.reason == (if failed && cancel.Some? then cancel.value.source else NoReason)
    && r'.prStatus == (if !failed && hasPR then PROpen else PRNone)
    && r'.prNumber == (if m.prNumber > r.prNumber then m.prNumber else r.prNumber)
    && r'.prURL == (if m.prURL != "" then m.prURL else r.prURL)
    && r'.headSHA == (if m.headSHA != "" then m.headSHA else r.headSHA)
    && r'.completedAt == Some(now)
    && r' == r.(status := r'.status, error := r'.error, reason := r'.reason, prStatus := r'.prStatus,
                prNumber := r'.prNumber, prURL := r'.prURL, headSHA := r'.headSHA, completedAt := r'.completedAt)
  }

  /** The same for a run that was put back in the queue meanwhile: it cannot succeed any more. */
  ghost predicate FinishedInQueue(m: RunMeta, r: Run, cancel: Option<CancelRequest>, now: int, r': Run) {
    if m.exitCode != 0 || m.error != "" then EndedByResult(m, r, cancel, now, r')
    else r' == T.AtEnd(r, Failed, "invalid run status transition", NoReason, now)
  }

  /** A batched transition to a final status writes that row, for a running run always. */
  lemma FinalBatch(d: T.Tables, id: RunId, to: RunStatus, patch: T.PRPatch, error: string, reason: StatusReason,
                   now: int, since: int)
    requires T.WellKeyed(d) && id in d.runs && !IsFinal(d.runs[id].status) && IsFinal(to)
    ensures var d' := T.TransitionBatch(d, id, to, patch, error, reason, now);
            && OthersKept(d, d', id, since) && id in d'.runs && d'.cancels == d.cancels
            && (if T.TransitionOutcome(d, id, to) == T.Updated
                then d'.runs[id] == T.AtEnd(T.Patched(d.runs[id], patch), to, error, reason, now)
                else d.runs[id].status == Queued && d' == d)
  {
    EndingKeepsOthers(d, id, to, patch, error, reason, now, since);
  }

  // ---------- the recovery of one run ----------

  predicate Bare(d: T.Tables, id: RunId) {
    id !in d.leases && id !in d.execs && id !in d.cancels
  }

  /** Another supervisor goes on: the row, the execution and a request stay, under a new lease. */
  predicate Adopted(d: T.Tables, d': T.Tables, id: RunId, w: World, me: InstanceId) {
    && id in d.runs && id in d'.runs && d'.runs[id] == d.runs[id]
    && id in d.execs && id in d'.execs && RequestOf(d', id) == RequestOf(d, id)
    && (if w.leaseFails then SameLease(d, d', id)
        else id in d'.leases && d'.leases[id] == RunLease(me, w.at, w.at + RUN_LEASE_TTL))
  }

  /** The run is queued as if it had never started, or has left the queue since. */
  predicate QueuedAgain(r: Run, d': T.Tables, id: RunId, since: int) {
    && id in d'.runs && id !in d'.execs
    && (|| (id !in d'.leases
            && d'.runs[id] == if r.status == Queued then r
                              else r.(status := Queued, error := "", reason := NoReason, startedAt := None,
                                      completedAt := None))
        || d'.runs[id].status == Canceled || d'.runs[id].status == Failed || JustClaimed(d', id, since))
  }

  /** What recovery makes of a running run with an execution record: the runner's answer decides. */
  ghost predicate DetachedDone(d: T.Tables, d': T.Tables, id: RunId, w: World, me: InstanceId, since: int)
    requires id in d.runs && id in d.execs
  {
    && id in d'.runs
    && match w.seen
       case NotFound =>
         && Bare(d', id)
         && d'.runs[id] == T.AtEnd(d.runs[id], Failed, "detached container missing during adoption", NoReason, w.at)
       case InspectFailed => Adopted(d, d', id, w, me) && d'.execs[id] == d.execs[id]
       case StillRunning => Adopted(d, d', id, w, me) && d'.execs[id] == Execution(ExecRunning, 0)
       case Exited(_) =>
         ResultActedOn(w, d.runs[id], RequestOf(d, id), d', id, since)
  }

  /** A usage limit puts the run back, any other result ends it. */
  ghost predicate ResultActedOn(w: World, r: Run, cancel: Option<CancelRequest>, d': T.Tables, id: RunId, since: int)
    requires id in d'.runs
  {
    if Limited(w) then QueuedAgain(r, d', id, since)
    else Bare(d', id) && EndedByResult(w.meta, r, cancel, w.at, d'.runs[id])
  }

  lemma QueuedAgainStays(r: Run, d: T.Tables, d': T.Tables, id: RunId, since: int)
    requires QueuedAgain(r, d, id, since) && d.runs[id].status == Queued && KeptOrLeft(d, d', id, since)
    ensures QueuedAgain(r, d', id, since)
  {
  }

  lemma DetachedStays(d: T.Tables, d1: T.Tables, d2: T.Tables, id: RunId, w: World, me: InstanceId, since: int)
    requires id in d.runs && id in d.execs && d.runs[id].status == Running
    requires DetachedDone(d, d1, id, w, me, since) && KeptOrLeft(d1, d2, id, since)
    ensures DetachedDone(d, d2, id, w, me, since)
  {
  }

  /** A running run without an execution record that was asked to stop. */
  predicate Asked(d: T.Tables, id: RunId) {
    id in d.runs && d.runs[id].status == Running && id !in d.execs && id in d.cancels
  }

  predicate CanceledAsAsked(d: T.Tables, d': T.Tables, id: RunId, at: int)
    requires Asked(d, id)
  {
    && id in d'.runs && id !in d'.cancels
    && d'.runs[id] == T.AtEnd(d.runs[id], Canceled, d.cancels[id].reason, d.cancels[id].source, at)
  }

  // ---------- the loop over the listed runs ----------

  predicate ListedFrom(runs: seq<Run>, i: nat, id: RunId) {
    exists k :: i <= k < |runs| && runs[k].id == id
  }

  ghost predicate AreListed(d: T.Tables, runs: seq<Run>) {
    && (forall k :: 0 <= k < |runs| ==>
          runs[k].id in d.runs && d.runs[runs[k].id] == runs[k] && runs[k].status == Running)
    && (forall j, k :: 0 <= j < k < |runs| ==> runs[j].seqNo > runs[k].seqNo)
  }

  /** The lease ran out or, without one, the start is longer ago than a lease lasts. */
  predicate Stale(d: T.Tables, id: RunId, now: int)
    requires id in d.runs
  {
    if id in d.leases then d.leases[id].expiresAt <= now
    else d.runs[id].startedAt.None? || d.runs[id].startedAt.value <= now - RUN_LEASE_TTL
  }

  /** A running run that nothing is known about but its row and perhaps its lease. */
  predicate Unattended(d: T.Tables, id: RunId) {
    id in d.runs && d.runs[id].status == Running && id !in d.execs && id !in d.cancels
  }

  /** After `i` of the listed runs: the rest is untouched, everything else is recovered, and
      exactly the stale ones among the unattended were put back. */
  ghost predicate SweptSoFar(d0: T.Tables, d: T.Tables, runs: seq<Run>, i: nat, requeued: set<RunId>, now: int,
                             world: RunId -> World, me: InstanceId)
  {
    && InSteps(d0, d)
    && AreListed(d0, runs)
    && d.runs.Keys == d0.runs.Keys
    && (forall id :: id in d0.runs ==> SweptRun(d0, d, runs, i, id in requeued, now, id, world(id), me))
    && requeued <= d0.runs.Keys
  }

  ghost predicate SweptRun(d0: T.Tables, d: T.Tables, runs: seq<Run>, i: nat, back: bool, now: int, id: RunId,
                           w: World, me: InstanceId)
    requires id in d0.runs && id in d.runs
  {
    && (ListedFrom(runs, i, id) ==> SameFacts(d0, d, id))
    && (!ListedFrom(runs, i, id) ==> Recovered(d, id, now))
    && (IsFinal(d0.runs[id].status) ==> SameFacts(d0, d, id))
    && (back <==> !ListedFrom(runs, i, id) && Unattended(d0, id) && Stale(d0, id, now))
    && (back ==> QueuedAgain(d0.runs[id], d, id, now))
    && (Unattended(d0, id) && !Stale(d0, id, now) ==> SameFacts(d0, d, id))
    && (!ListedFrom(runs, i, id) && d0.runs[id].status == Running ==> Settled(d0, d, id, w, me, now))
  }

  /** What the runner or a request had to say about the run has been acted on. */
  ghost predicate Settled(d0: T.Tables, d: T.Tables, id: RunId, w: World, me: InstanceId, now: int)
    requires id in d0.runs && d0.runs[id].status == Running
  {
    && (id in d0.execs ==> DetachedDone(d0, d, id, w, me, now))
    && (Asked(d0, id) ==> CanceledAsAsked(d0, d, id, w.at))
  }

  lemma SweepStarts(d0: T.Tables, runs: seq<Run>, now: int, world: RunId -> World, me: InstanceId)
    requires AreListed(d0, runs) && forall id :: id in d0.runs && d0.runs[id].status == Running ==> d0.runs[id] in runs
    requires T.WellKeyed(d0)
    ensures SweptSoFar(d0, d0, runs, 0, {}, now, world, me)
  {
    InNoSteps(d0);
    forall id | id in d0.runs && d0.runs[id].status == Running ensures ListedFrom(runs, 0, id) {
      var k :| 0 <= k < |runs| && runs[k] == d0.runs[id];
    }
  }

  lemma SweptRunContinues(d0: T.Tables, d: T.Tables, d': T.Tables, runs: seq<Run>, i: nat, back: bool, now: int,
                          id: RunId, w: World, me: InstanceId)
    requires id in d0.runs && id in d.runs && SweptRun(d0, d, runs, i, back, now, id, w, me)
    requires i < |runs| && id != runs[i].id
    requires OthersKept(d, d', runs[i].id, now)
    requires ListedFrom(runs, i + 1, id) <==> ListedFrom(runs, i, id)
    requires ListedFrom(runs, i, id) ==> d0.runs[id].status == Running
    ensures id in d'.runs && SweptRun(d0, d', runs, i + 1, back, now, id, w, me)
  {
    assert KeptOrLeft(d, d', id, now);
    if Recovered(d, id, now) {
      RecoveredStays(d, d', runs[i].id, now, id, now);
    }
    if !ListedFrom(runs, i, id) && d0.runs[id].status == Running && id in d0.execs {
      DetachedStays(d0, d, d', id, w, me, now);
    }
  }

  /** Moving on from run i takes exactly that run off the rest of the list. */
  lemma RestOfList(d0: T.Tables, runs: seq<Run>, i: nat)
    requires AreListed(d0, runs) && i < |runs|
    ensures !ListedFrom(runs, i + 1, runs[i].id) && ListedFrom(runs, i, runs[i].id)
    ensures forall id :: id != runs[i].id ==> (ListedFrom(runs, i + 1, id) <==> ListedFrom(runs, i, id))
    ensures forall id :: id in d0.runs && ListedFrom(runs, i, id) ==> d0.runs[id].status == Running
  {
    assert forall k :: i + 1 <= k < |runs| ==> runs[k].id != runs[i].id;
  }

  lemma SweepContinues(d0: T.Tables, d: T.Tables, d': T.Tables, runs: seq<Run>, i: nat, requeued: set<RunId>,
                       back: bool, now: int, world: RunId -> World, me: InstanceId)
    requires SweptSoFar(d0, d, runs, i, requeued, now, world, me) && i < |runs|
    requires OthersKept(d, d', runs[i].id, now) && runs[i].id in d'.runs
    requires RecoveredOne(d, d', runs[i].id, back, now, world(runs[i].id), me)
    ensures SweptSoFar(d0, d', runs, i + 1, if back then requeued + {runs[i].id} else requeued, now, world, me)
  {
    var x := runs[i].id;
    InMoreSteps(d0, d, d');
    forall id | id in d0.runs
      ensures SweptRun(d0, d', runs, i + 1, if id == x then back else id in requeued, now, id, world(id), me)
      ensures id == x ==> x !in requeued
    {
      SweptRunNext(d0, d, d', runs, i, id in requeued, back, now, id, world(id), me);
    }
  }

  lemma SweptRunNext(d0: T.Tables, d: T.Tables, d': T.Tables, runs: seq<Run>, i: nat, before: bool, back: bool,
                     now: int, id: RunId, w: World, me: InstanceId)
    requires AreListed(d0, runs) && i < |runs| && id in d0.runs && id in d.runs
    requires SweptRun(d0, d, runs, i, before, now, id, w, me)
    requires OthersKept(d, d', runs[i].id, now) && runs[i].id in d'.runs
    requires id == runs[i].id ==> RecoveredOne(d, d', id, back, now, w, me)
    ensures id in d'.runs
    ensures SweptRun(d0, d', runs, i + 1, if id == runs[i].id then back else before, now, id, w, me)
    ensures id == runs[i].id ==> !before
  {
    RestOfList(d0, runs, i);
    if id != runs[i].id {
      SweptRunContinues(d0, d, d', runs, i, before, now, id, w, me);
    } else {
      SweptRunEnds(d0, d, d', runs, i, before, back, now, w, me);
    }
  }

  lemma SweptRunEnds(d0: T.Tables, d: T.Tables, d': T.Tables, runs: seq<Run>, i: nat, before: bool, back: bool,
                     now: int, w: World, me: InstanceId)
    requires AreListed(d0, runs) && i < |runs|
    requires runs[i].id in d.runs && SweptRun(d0, d, runs, i, before, now, runs[i].id, w, me)
    requires runs[i].id in d'.runs && RecoveredOne(d, d', runs[i].id, back, now, w, me)
    requires ListedFrom(runs, i, runs[i].id) && !ListedFrom(runs, i + 1, runs[i].id)
    ensures SweptRun(d0, d', runs, i + 1, back, now, runs[i].id, w, me)
  {
    var x := runs[i].id;
    assert SameFacts(d0, d, x) && d0.runs[x].status == Running;
    assert Unattended(d, x) == Unattended(d0, x) && Stale(d, x, now) == Stale(d0, x, now);
  }

  /** What the sweep does to the run it looks at: it is put back exactly if it is unattended and
      stale, left alone if unattended and not stale, else dealt with as the runner or the request
      has it, and recovered in any case. */
  ghost predicate RecoveredOne(d: T.Tables, d': T.Tables, id: RunId, back: bool, now: int, w: World, me: InstanceId)
    requires id in d'.runs
  {
    && id in d.runs && d.runs[id].status == Running && Recovered(d', id, now) && Settled(d, d', id, w, me, now)
    && (back <==> Unattended(d, id) && Stale(d, id, now))
    && (back ==> QueuedAgain(d.runs[id], d', id, now))
    && (Unattended(d, id) && !Stale(d, id, now) ==> SameFacts(d, d', id))
  }

  /** Startup recovery's promise: every run still running without an execution record has no
      pending cancel and an unexpired lease or a start within the last TTL; exactly the stale
      ones among the unattended runs were put back in the queue; those with an execution record
      were dealt with as the runner answered, those asked to stop were canceled; the others and
      the final runs are as they were. */
  ghost predicate RecoveryDone(d0: T.Tables, d: T.Tables, requeued: set<RunId>, now: int, world: RunId -> World,
                               me: InstanceId)
  {
    && InSteps(d0, d)
    && d.runs.Keys == d0.runs.Keys
    && (forall id :: id in d0.runs ==> Recovered(d, id, now))
    && (forall id :: id in d0.runs && IsFinal(d0.runs[id].status) ==> SameFacts(d0, d, id))
    && (forall id :: id in requeued <==> Unattended(d0, id) && Stale(d0, id, now))
    && (forall id :: id in requeued ==> QueuedAgain(d0.runs[id], d, id, now))
    && (forall id :: id in d0.runs && d0.runs[id].status == Running ==> Settled(d0, d, id, world(id), me, now))
    && (forall id :: Unattended(d0, id) && id !in requeued ==> SameFacts(d0, d, id))
  }

  lemma SweepEnds(d0: T.Tables, d: T.Tables, runs: seq<Run>, requeued: set<RunId>, now: int,
                  world: RunId -> World, me: InstanceId)
    requires SweptSoFar(d0, d, runs, |runs|, requeued, now, world, me)
    ensures RecoveryDone(d0, d, requeued, now, world, me)
  {
    forall id | id in d0.runs
      ensures SweptRun(d0, d, runs, |runs|, id in requeued, now, id, world(id), me) && !ListedFrom(runs, |runs|, id)
    {
    }
  }
}
