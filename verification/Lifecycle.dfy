/** Runs of the whole orchestrator: any number of goroutines of any number of instances,
    interleaved statement by statement over the shared tables.

    A statement that needs no evidence can be issued at any time by anybody. The two that do
    need evidence, claiming the next queued run and clearing a cancel request, are issued only
    by threads that got there along the paths of the code, holding snapshots that may have gone
    stale in between.

    A claim with a preferred task is two statements in the code. The first, if it finds no run of
    that task, changes nothing, and the second is a claim without preference; so each outcome is
    covered by one step. */
module Lifecycle {
  import opened RunTypes
  import opened RunTables

  type ThreadId = nat

  /** Where a goroutine stands, for the paths that end in a claim or in a cleared request. */
  datatype Pc =
    | Idle
    | SchedChecked(at: int)                       // ScheduleRuns looked for a pause at `at` and saw none
    | SchedClaimed(id: RunId)                     // ScheduleRuns claimed `id`; looks for a request next
    | MustCancel(id: RunId)                       // saw a request for `id`; transitions it next
    | MustClear(id: RunId)                        // clears the request of `id` next
    | ApiSaw(id: RunId, status: RunStatus)        // HandleCancelRun read the row
    | ApiRequested(id: RunId)                     // ... recorded the request; the row was queued
    | Finishing(id: RunId, status: RunStatus)     // finishRun holds this snapshot

  datatype State = State(db: Tables, issued: set<RunId>, threads: map<ThreadId, Pc>)

  datatype Step =
    // anybody, any time
    | AddRunStep(id: RunId, taskId: TaskId, prNumber: nat, prStatus: PRStatus, headSHA: string, now: int, maxRuns: nat)
    | StartStep(id: RunId, now: int)
    | FinalStep(id: RunId, to: RunStatus, patch: PRPatch, error: string, reason: StatusReason, now: int)
    | RequeueStep(id: RunId)
    | PatchStep(id: RunId, patch: PRPatch)
    | CancelQueuedStep(taskId: TaskId, error: string, reason: StatusReason, now: int)
    | RequestStep(id: RunId, req: CancelRequest)
    | WriteTask(taskId: TaskId, task: Task)
    | WriteLeases(leases: map<RunId, RunLease>, execs: map<RunId, Execution>)
    | PauseStep(why: string, until: int)
    // ScheduleRuns
    | SchedCheck(t: ThreadId, now: int, fails: bool) // a failed lookup counts as no pause
    | SchedClaim(t: ThreadId, preferred: TaskId, now: int)
    | SchedLook(t: ThreadId)
    // RecoverRunningRuns and RecoverQueuedCancels, once they hold a listed row
    | SweepLook(t: ThreadId, id: RunId)
    // the tail those three share
    | DoCancel(t: ThreadId, now: int)
    | DoClear(t: ThreadId)
    // HandleCancelRun
    | ApiRead(t: ThreadId, id: RunId)
    | ApiRequest(t: ThreadId)
    | ApiTransition(t: ThreadId, now: int)
    // finishRun with a snapshot taken earlier
    | FinishRead(t: ThreadId, id: RunId)
    | FinishClear(t: ThreadId)
    | Crash(t: ThreadId)

  function PcOf(s: State, t: ThreadId): Pc {
    if t in s.threads then s.threads[t] else Idle
  }

  function Goto(s: State, t: ThreadId, pc: Pc): State {
    s.(threads := s.threads[t := pc])
  }

  /** HandleCancelRun answers "already completed" for these; a run in review is not among them. */
  predicate IsOver(s: RunStatus) {
    s == Succeeded || s == Failed || s == Canceled
  }

  ghost predicate Enabled(s: State, step: Step) {
    match step
    case AddRunStep(id, _, _, _, _, _, _) => id !in s.issued
    case FinalStep(_, to, _, _, _, _) => IsFinal(to)
    case RequestStep(id, _) => id in s.issued
    case SchedCheck(t, now, fails) => PcOf(s, t).Idle? && (fails || !Paused(s.db, WORKERS, now))
    case SchedClaim(t, _, _) => PcOf(s, t).SchedChecked? && WellKeyed(s.db)
    case SchedLook(t) => PcOf(s, t).SchedClaimed?
    case SweepLook(t, id) => PcOf(s, t).Idle? && id in s.issued
    case DoCancel(t, _) => PcOf(s, t).MustCancel?
    case DoClear(t) => PcOf(s, t).MustClear?
    case ApiRead(t, id) => PcOf(s, t).Idle? && id in s.db.runs
    case ApiRequest(t) => PcOf(s, t).ApiSaw?
    case ApiTransition(t, _) => PcOf(s, t).ApiRequested?
    case FinishRead(t, id) => PcOf(s, t).Idle? && id in s.db.runs
    case FinishClear(t) => PcOf(s, t).Finishing?
    case _ => true
  }

  ghost function Apply(s: State, step: Step): State
    requires Enabled(s, step)
  {
    match step
    case AddRunStep(id, taskId, prNumber, prStatus, headSHA, now, maxRuns) =>
      s.(db := AddRun(s.db, id, taskId, prNumber, prStatus, headSHA, now, maxRuns), issued := s.issued + {id})
    case StartStep(id, now) => s.(db := ClaimStart(s.db, id, now))
    case FinalStep(id, to, patch, error, reason, now) =>
      s.(db := TransitionBatch(s.db, id, to, patch, error, reason, now))
    case RequeueStep(id) => s.(db := Requeue(s.db, id))
    case PatchStep(id, patch) => s.(db := PatchRun(s.db, id, patch))
    case CancelQueuedStep(taskId, error, reason, now) => s.(db := CancelQueued(s.db, taskId, error, reason, now))
    case RequestStep(id, req) => s.(db := RequestCancel(s.db, id, req))
    case WriteTask(taskId, task) => s.(db := s.db.(tasks := s.db.tasks[taskId := task]))
    case WriteLeases(leases, execs) => s.(db := s.db.(leases := leases, execs := execs))
    case PauseStep(why, until) => s.(db := PauseScheduler(s.db, WORKERS, why, until))
    case SchedCheck(t, now, _) => Goto(s, t, SchedChecked(now))
    case SchedClaim(t, preferred, now) =>
      (match NextRun(s.db, preferred)
       case None => Goto(s, t, Idle)
       case Some(id) => Goto(s.(db := ClaimNext(s.db, preferred, now)), t, SchedClaimed(id)))
    case SchedLook(t) =>
      var id := PcOf(s, t).id;
      Goto(s, t, if id in s.db.cancels then MustCancel(id) else Idle)
    case SweepLook(t, id) => Goto(s, t, if id in s.db.cancels then MustCancel(id) else Idle)
    case DoCancel(t, now) =>
      // the transition may be rejected; the request is cleared either way
      var id := PcOf(s, t).id;
      var req := if id in s.db.cancels then s.db.cancels[id] else CancelRequest("", NoReason);
      Goto(s.(db := Transition(s.db, id, Canceled, req.reason, req.source, now)), t, MustClear(id))
    case DoClear(t) => Goto(s.(db := ClearCancel(s.db, PcOf(s, t).id)), t, Idle)
    case ApiRead(t, id) =>
      var status := s.db.runs[id].status;
      Goto(s, t, if IsOver(status) then MustClear(id) else ApiSaw(id, status))
    case ApiRequest(t) =>
      var pc := PcOf(s, t);
      Goto(s.(db := RequestCancel(s.db, pc.id, USER_CANCEL)), t,
           if pc.status == Queued then ApiRequested(pc.id) else Idle)
    case ApiTransition(t, now) =>
      // a rejected transition is answered with an error and the request stays
      var id := PcOf(s, t).id;
      Goto(s.(db := Transition(s.db, id, Canceled, USER_CANCEL.reason, NoReason, now)), t,
           if TransitionOutcome(s.db, id, Canceled) == Updated then MustClear(id) else Idle)
    case FinishRead(t, id) => Goto(s, t, Finishing(id, s.db.runs[id].status))
    case FinishClear(t) =>
      var pc := PcOf(s, t);
      Goto(s, t, if IsFinal(pc.status) then MustClear(pc.id) else Idle)
    case Crash(t) => Goto(s, t, Idle)
  }

  const INIT := State(EMPTY, {}, map[])

  ghost predicate IsRun(ss: seq<State>, steps: seq<Step>) {
    && |ss| == |steps| + 1
    && ss[0] == INIT
    && forall i :: 0 <= i < |steps| ==> Enabled(ss[i], steps[i]) && ss[i + 1] == Apply(ss[i], steps[i])
  }

  // ---------- the inductive invariant ----------

  predicate Settled(db: Tables, id: RunId) {
    id in db.runs ==> IsFinal(db.runs[id].status)
  }

  /** The evidence a thread's position carries, in spite of stale snapshots. */
  predicate Justified(s: State, pc: Pc) {
    match pc
    case Idle => true
    case SchedChecked(_) => true
    case SchedClaimed(id) => id in s.issued
    case MustCancel(id) => id in s.issued
    case MustClear(id) => id in s.issued && Settled(s.db, id)
    case ApiSaw(id, _) => id in s.issued
    case ApiRequested(id) => id in s.issued
    case Finishing(id, status) => id in s.issued && (IsFinal(status) ==> Settled(s.db, id))
  }

  ghost predicate Good(s: State) {
    && Inv(s.db)
    && s.db.runs.Keys <= s.issued
    && forall t :: t in s.threads ==> Justified(s, s.threads[t])
  }

  /** What one step does to the tables. */
  ghost predicate Moves(s: State, s': State) {
    && Inv(s'.db)
    && s.issued <= s'.issued
    && Evolves(s.db, s'.db, s'.issued - s.issued)
  }

  lemma FreeStepMoves(s: State, step: Step)
    requires Good(s) && Enabled(s, step)
    requires step.AddRunStep? || step.StartStep? || step.FinalStep? || step.RequeueStep? || step.PatchStep?
             || step.CancelQueuedStep? || step.RequestStep? || step.WriteTask? || step.WriteLeases? || step.PauseStep?
    ensures Moves(s, Apply(s, step)) && Apply(s, step).threads == s.threads
    ensures Apply(s, step).db.runs.Keys <= Apply(s, step).issued
  {
    match step
    case AddRunStep(id, taskId, prNumber, prStatus, headSHA, now, maxRuns) =>
      AddRunKeeps(s.db, id, taskId, prNumber, prStatus, headSHA, now, maxRuns);
      assert Apply(s, step).issued - s.issued == {id};
    case StartStep(id, now) => ClaimStartKeeps(s.db, id, now);
    case FinalStep(id, to, patch, error, reason, now) => TransitionBatchKeeps(s.db, id, to, patch, error, reason, now);
    case RequeueStep(id) => RequeueKeeps(s.db, id);
    case PatchStep(id, patch) => PatchRunKeeps(s.db, id, patch);
    case CancelQueuedStep(taskId, error, reason, now) => CancelQueuedKeeps(s.db, taskId, error, reason, now);
    case RequestStep(_, _) => RewrittenRowsKeep(s.db, Apply(s, step).db);
    case WriteTask(_, _) => RewrittenRowsKeep(s.db, Apply(s, step).db);
    case WriteLeases(_, _) => RewrittenRowsKeep(s.db, Apply(s, step).db);
    case PauseStep(_, _) => RewrittenRowsKeep(s.db, Apply(s, step).db);
  }

  ghost predicate ThreadMoved(s: State, s': State, t: ThreadId) {
    && Moves(s, s') && s'.issued == s.issued && s'.db.runs.Keys <= s.issued
    && s'.threads == s.threads[t := PcOf(s', t)] && Justified(s', PcOf(s', t))
  }

  lemma SchedClaimMoves(s: State, step: Step)
    requires Good(s) && Enabled(s, step) && step.SchedClaim?
    ensures ThreadMoved(s, Apply(s, step), step.t)
  {
    ClaimNextKeeps(s.db, step.preferred, step.now);
  }

  lemma DoCancelMoves(s: State, step: Step)
    requires Good(s) && Enabled(s, step) && step.DoCancel?
    ensures ThreadMoved(s, Apply(s, step), step.t)
  {
    var id := PcOf(s, step.t).id;
    var req := if id in s.db.cancels then s.db.cancels[id] else CancelRequest("", NoReason);
    CancelMoves(s, id, req, step.now);
    assert Apply(s, step) == Goto(s.(db := Transition(s.db, id, Canceled, req.reason, req.source, step.now)), step.t,
                                  MustClear(id));
  }

  lemma CancelMoves(s: State, id: RunId, req: CancelRequest, now: int)
    requires Good(s)
    ensures var s' := s.(db := Transition(s.db, id, Canceled, req.reason, req.source, now));
            Moves(s, s') && s'.db.runs.Keys <= s.issued && Settled(s'.db, id)
  {
    TransitionBatchKeeps(s.db, id, Canceled, NO_PATCH, req.reason, req.source, now);
  }

  lemma ApiTransitionMoves(s: State, step: Step)
    requires Good(s) && Enabled(s, step) && step.ApiTransition?
    ensures ThreadMoved(s, Apply(s, step), step.t)
  {
    TransitionBatchKeeps(s.db, PcOf(s, step.t).id, Canceled, NO_PATCH, USER_CANCEL.reason, NoReason, step.now);
  }

  lemma RequestStepMoves(s: State, step: Step)
    requires Good(s) && Enabled(s, step) && (step.DoClear? || step.ApiRequest?)
    ensures ThreadMoved(s, Apply(s, step), step.t)
  {
    RewrittenRowsKeep(s.db, Apply(s, step).db);
  }

  lemma ThreadStepMoves(s: State, step: Step)
    requires Good(s) && Enabled(s, step)
    requires step.SchedClaim? || step.DoCancel? || step.DoClear? || step.ApiRequest? || step.ApiTransition?
    ensures ThreadMoved(s, Apply(s, step), step.t)
  {
    match step
    case SchedClaim(_, _, _) => SchedClaimMoves(s, step);
    case DoCancel(_, _) => DoCancelMoves(s, step);
    case ApiTransition(_, _) => ApiTransitionMoves(s, step);
    case DoClear(_) => RequestStepMoves(s, step);
    case ApiRequest(_) => RequestStepMoves(s, step);
  }

  lemma JustifiedStays(s: State, s': State, pc: Pc)
    requires Good(s) && Moves(s, s') && Justified(s, pc)
    ensures Justified(s', pc)
  {
  }

  lemma StepKeepsGood(s: State, step: Step)
    requires Good(s) && Enabled(s, step)
    ensures Good(Apply(s, step)) && Moves(s, Apply(s, step))
  {
    var s' := Apply(s, step);
    if step.SchedClaim? || step.DoCancel? || step.DoClear? || step.ApiRequest? || step.ApiTransition? {
      ThreadStepMoves(s, step);
    } else if step.SchedCheck? || step.SchedLook? || step.SweepLook? || step.ApiRead? || step.FinishRead?
        || step.FinishClear? || step.Crash? {
      assert s'.db == s.db && s'.issued == s.issued;
      assert Justified(s', PcOf(s', step.t));
      assert s'.threads == s.threads[step.t := PcOf(s', step.t)];
    } else {
      FreeStepMoves(s, step);
    }
    forall t | t in s'.threads ensures Justified(s', s'.threads[t]) {
      if t in s.threads && s'.threads[t] == s.threads[t] {
        JustifiedStays(s, s', s.threads[t]);
      }
    }
  }

  lemma {:induction false} AlwaysGood(ss: seq<State>, steps: seq<Step>, k: nat)
    requires IsRun(ss, steps) && k < |ss|
    ensures Good(ss[k])
  {
    if k > 0 {
      AlwaysGood(ss, steps, k - 1);
      StepKeepsGood(ss[k - 1], steps[k - 1]);
      assert ss[(k - 1) + 1] == Apply(ss[k - 1], steps[k - 1]);
    }
  }

  // ---------- theorems over whole runs ----------

  /** Runs of a task are serial: at no point of any run do two runs of a task execute. */
  lemma NeverTwoRunning(ss: seq<State>, steps: seq<Step>, k: nat, a: RunId, b: RunId)
    requires IsRun(ss, steps) && k < |ss|
    requires a in ss[k].db.runs && b in ss[k].db.runs && ss[k].db.runs[a].taskId == ss[k].db.runs[b].taskId
    requires ss[k].db.runs[a].status == Running && ss[k].db.runs[b].status == Running
    ensures a == b
  {
    AlwaysGood(ss, steps, k);
    assert RunningFor(ss[k].db, a, ss[k].db.runs[a].taskId) && RunningFor(ss[k].db, b, ss[k].db.runs[a].taskId);
  }

  /** Timestamps and reasons always fit the status, whichever path wrote the row. */
  lemma AlwaysStamped(ss: seq<State>, steps: seq<Step>, k: nat, id: RunId)
    requires IsRun(ss, steps) && k < |ss| && id in ss[k].db.runs
    ensures StampsFit(ss[k].db.runs[id])
  {
    AlwaysGood(ss, steps, k);
  }

  /** Every single step, validated or raw SQL, moves a row along the transition table. */
  lemma StepsFollowTable(ss: seq<State>, steps: seq<Step>, k: nat, id: RunId)
    requires IsRun(ss, steps) && k < |steps| && id in ss[k].db.runs && id in ss[k + 1].db.runs
    ensures CanTransition(ss[k].db.runs[id].status, ss[k + 1].db.runs[id].status)
  {
    AlwaysGood(ss, steps, k);
    StepKeepsGood(ss[k], steps[k]);
  }

  /** How a later state of a run relates to an earlier one. */
  ghost predicate Later(s: State, s': State) {
    && s.issued <= s'.issued
    && (forall id :: id in s.db.runs && id in s'.db.runs ==>
          && CanReach(s.db.runs[id].status, s'.db.runs[id].status)
          && s'.db.runs[id].taskId == s.db.runs[id].taskId)
    && (forall id :: id in s'.db.runs && id in s.issued ==> id in s.db.runs)
    && (forall id :: id in s.db.cancels && id in s.issued && id !in s'.db.cancels ==> Settled(s'.db, id))
  }

  lemma {:induction false} LaterAlongRun(ss: seq<State>, steps: seq<Step>, i: nat, j: nat)
    requires IsRun(ss, steps) && i <= j < |ss|
    ensures Later(ss[i], ss[j])
  {
    AlwaysGood(ss, steps, i);
    if i < j {
      LaterAlongRun(ss, steps, i, j - 1);
      AlwaysGood(ss, steps, j - 1);
      StepKeepsGood(ss[j - 1], steps[j - 1]);
      assert ss[(j - 1) + 1] == Apply(ss[j - 1], steps[j - 1]);
      LaterThenMoves(ss[i], ss[j - 1], ss[j]);
    }
  }

  lemma LaterThenMoves(s: State, mid: State, s': State)
    requires Good(s) && Later(s, mid) && Good(mid) && Moves(mid, s')
    ensures Later(s, s')
  {
    forall id | id in s'.db.runs && id in s.issued
      ensures id in s.db.runs && id in mid.db.runs
      ensures CanReach(s.db.runs[id].status, s'.db.runs[id].status)
      ensures s'.db.runs[id].taskId == s.db.runs[id].taskId
    {
      assert id !in s'.issued - mid.issued;
      assert CanTransition(mid.db.runs[id].status, s'.db.runs[id].status);
    }
    forall id | id in s.db.cancels && id in s.issued && id !in s'.db.cancels
      ensures Settled(s'.db, id)
    {
      if id in s'.db.runs {
        assert id in mid.db.runs && CanTransition(mid.db.runs[id].status, s'.db.runs[id].status);
        assert id !in mid.db.cancels ==> Settled(mid.db, id);
      }
    }
  }

  /** Final statuses are never left, review only for succeeded or canceled, and a row that was
      trimmed never comes back. */
  lemma FinalIsForever(ss: seq<State>, steps: seq<Step>, i: nat, j: nat, id: RunId)
    requires IsRun(ss, steps) && i <= j < |ss| && id in ss[i].issued && id in ss[j].db.runs
    ensures id in ss[i].db.runs
    ensures CanReach(ss[i].db.runs[id].status, ss[j].db.runs[id].status)
    ensures IsFinal(ss[i].db.runs[id].status) ==> IsFinal(ss[j].db.runs[id].status)
    ensures IsOver(ss[i].db.runs[id].status) ==> ss[j].db.runs[id].status == ss[i].db.runs[id].status
  {
    LaterAlongRun(ss, steps, i, j);
  }

  /** A recorded cancel is not lost: from then on the request is there, or the run is final
      (or trimmed), although every caller that clears a request acts on an old snapshot. */
  lemma CancelIntentKept(ss: seq<State>, steps: seq<Step>, i: nat, j: nat, id: RunId)
    requires IsRun(ss, steps) && i <= j < |ss|
    requires id in ss[i].db.cancels && id in ss[i].issued
    ensures id in ss[j].db.cancels || Settled(ss[j].db, id)
  {
    LaterAlongRun(ss, steps, i, j);
  }

  /** Once a cancel is recorded, the scheduler never claims that run again, not even after the
      request has been cleared. */
  lemma CanceledNeverScheduled(ss: seq<State>, steps: seq<Step>, i: nat, j: nat, id: RunId)
    requires IsRun(ss, steps) && i <= j < |steps|
    requires id in ss[i].db.cancels && id in ss[i].issued
    requires steps[j].SchedClaim?
    ensures NextRun(ss[j].db, steps[j].preferred) != Some(id)
  {
    CancelIntentKept(ss, steps, i, j, id);
    AlwaysGood(ss, steps, j);
    ClaimNextKeeps(ss[j].db, steps[j].preferred, steps[j].now);
  }

  // ---------- the pause ----------

  ghost predicate PausedUntil(s: State, until: int) {
    WORKERS in s.db.pauses && s.db.pauses[WORKERS].until >= until
  }

  /** A pause call is visible from its step on, as a deadline at least as late. */
  lemma {:induction false} PauseIsRemembered(ss: seq<State>, steps: seq<Step>, p: nat, k: nat)
    requires IsRun(ss, steps) && p < k < |ss| && steps[p].PauseStep?
    ensures PausedUntil(ss[k], steps[p].until)
  {
    if p < k - 1 {
      PauseIsRemembered(ss, steps, p, k - 1);
    }
    PauseGrowsAlong(ss, steps, k - 1, steps[p].until);
  }

  lemma PauseGrowsAlong(ss: seq<State>, steps: seq<Step>, k: nat, until: int)
    requires IsRun(ss, steps) && k < |steps|
    requires PausedUntil(ss[k], until) || (steps[k].PauseStep? && steps[k].until == until)
    ensures PausedUntil(ss[k + 1], until)
  {
    assert Enabled(ss[k], steps[k]) && ss[k + 1] == Apply(ss[k], steps[k]);
    PauseOnlyGrows(ss[k], steps[k], until);
  }

  lemma PauseOnlyGrows(s: State, step: Step, until: int)
    requires Enabled(s, step)
    requires PausedUntil(s, until) || (step.PauseStep? && step.until == until)
    ensures PausedUntil(Apply(s, step), until)
  {
  }

  predicate IsCheck(step: Step, t: ThreadId, at: int) {
    step.SchedCheck? && step.t == t && step.now == at
  }

  lemma {:induction false} CheckPrecedesClaim(ss: seq<State>, steps: seq<Step>, k: nat, t: ThreadId) returns (c: nat)
    requires IsRun(ss, steps) && k < |ss| && PcOf(ss[k], t).SchedChecked?
    ensures c < k && IsCheck(steps[c], t, PcOf(ss[k], t).at)
    ensures forall j :: c < j <= k ==> PcOf(ss[j], t) == PcOf(ss[k], t)
  {
    assert ss[(k - 1) + 1] == Apply(ss[k - 1], steps[k - 1]);
    if IsCheck(steps[k - 1], t, PcOf(ss[k], t).at) {
      c := k - 1;
    } else {
      assert PcOf(ss[k - 1], t) == PcOf(ss[k], t);
      c := CheckPrecedesClaim(ss, steps, k - 1, t);
    }
  }

  /** Step c is the pause check that the thread of step k made last: from it to k it stands
      between check and claim, with the clock reading of that check. */
  ghost predicate OwnCheck(ss: seq<State>, steps: seq<Step>, c: int, k: nat)
    requires |ss| == |steps| + 1 && k < |steps| && steps[k].SchedClaim?
  {
    && 0 <= c < k && steps[c].SchedCheck? && steps[c].t == steps[k].t
    && forall j :: c < j <= k ==> PcOf(ss[j], steps[k].t) == SchedChecked(steps[c].now)
  }

  /** A claim is covered by a pause check of its own pass: at the time that check read, every
      pause requested before the check had run out, unless its lookup failed. */
  lemma NoClaimInsidePause(ss: seq<State>, steps: seq<Step>, k: nat)
    requires IsRun(ss, steps) && k < |steps| && steps[k].SchedClaim?
    ensures exists c :: OwnCheck(ss, steps, c, k)
                        && (steps[c].fails || forall p :: 0 <= p < c && steps[p].PauseStep? ==>
                            steps[p].until <= steps[c].now)
  {
    assert Enabled(ss[k], steps[k]);
    var c := CheckPrecedesClaim(ss, steps, k, steps[k].t);
    assert OwnCheck(ss, steps, c, k);
    forall p | !steps[c].fails && 0 <= p < c && steps[p].PauseStep?
      ensures steps[p].until <= steps[c].now
    {
      PauseIsRemembered(ss, steps, p, c);
    }
  }

  /** When exactly a claim of a pass that checked at `c` happens during a pause: when the pause
      was requested between that check and the claim, or at any time before the claim if the
      lookup of the check failed. */
  lemma ClaimDuringPauseIff(ss: seq<State>, steps: seq<Step>, c: nat, k: nat)
    requires IsRun(ss, steps) && c < k < |steps|
    requires steps[c].SchedCheck? && steps[k].SchedClaim? && steps[c].now <= steps[k].now
    ensures Paused(ss[k].db, WORKERS, steps[k].now) <==>
            exists p :: 0 <= p < k && (c < p || steps[c].fails) && steps[p].PauseStep? && steps[p].until > steps[k].now
  {
    if Paused(ss[k].db, WORKERS, steps[k].now) {
      assert Enabled(ss[c], steps[c]) && ss[c + 1] == Apply(ss[c], steps[c]);
      var p := PauseCameFrom(ss, steps, if steps[c].fails then 0 else c + 1, k, steps[k].now);
    }
    forall p | 0 <= p < k && (c < p || steps[c].fails) && steps[p].PauseStep? && steps[p].until > steps[k].now
      ensures Paused(ss[k].db, WORKERS, steps[k].now)
    {
      PauseIsRemembered(ss, steps, p, k);
    }
  }

  /** With check and claim as one step, no run is claimed before the deadline, unless the lookup
      failed. */
  lemma AtomicTurnsRespectPauses(ss: seq<State>, steps: seq<Step>, k: nat, p: nat)
    requires IsRun(ss, steps) && p < k && k + 1 < |steps| && steps[p].PauseStep?
    requires steps[k].SchedCheck? && steps[k + 1].SchedClaim? && steps[k + 1].now == steps[k].now
    ensures steps[p].until <= steps[k + 1].now || steps[k].fails
  {
    ClaimDuringPauseIff(ss, steps, k, k + 1);
    PauseIsRemembered(ss, steps, p, k + 1);
  }

  lemma {:induction false} PauseCameFrom(ss: seq<State>, steps: seq<Step>, from: nat, k: nat, now: int) returns (p: nat)
    requires IsRun(ss, steps) && from <= k < |ss|
    requires !Paused(ss[from].db, WORKERS, now) && Paused(ss[k].db, WORKERS, now)
    ensures from <= p < k && steps[p].PauseStep? && steps[p].until > now
  {
    var s, step := ss[k - 1], steps[k - 1];
    assert Enabled(s, step) && ss[(k - 1) + 1] == Apply(s, step);
    if Paused(s.db, WORKERS, now) {
      p := PauseCameFrom(ss, steps, from, k - 1, now);
    } else {
      NotPausedBefore(s, step, now);
      p := k - 1;
    }
  }

  lemma NotPausedBefore(s: State, step: Step, now: int)
    requires Enabled(s, step) && !Paused(s.db, WORKERS, now) && Paused(Apply(s, step).db, WORKERS, now)
    ensures step.PauseStep? && step.until > now
  {
  }

  /** Step k claims a run during a pause. */
  ghost predicate ClaimsInPause(ss: seq<State>, steps: seq<Step>, k: nat) {
    && IsRun(ss, steps) && k < |steps| && steps[k].SchedClaim?
    && NextRun(ss[k].db, steps[k].preferred).Some? && Paused(ss[k].db, WORKERS, steps[k].now)
  }

  /** The window exists: a pass checks, a usage limit pauses the workers, the pass claims. */
  lemma ClaimDuringPauseHappens()
    ensures exists ss: seq<State>, steps: seq<Step>, k: nat :: ClaimsInPause(ss, steps, k)
  {
    var ss1, steps1 := OneQueuedRun();
    var added := ss1[|ss1| - 1];
    var ss2, steps2 := OneMoreStep(ss1, steps1, SchedCheck(0, 10, false));
    var checked := ss2[|ss2| - 1];
    assert PcOf(checked, 0) == SchedChecked(10) && checked.db == added.db;
    var ss3, steps3 := OneMoreStep(ss2, steps2, PauseStep("usage limit", 1000));
    var paused := ss3[|ss3| - 1];
    assert PcOf(paused, 0) == SchedChecked(10) && Paused(paused.db, WORKERS, 20) && paused.db.runs == added.db.runs;
    var ss, steps := ClaimLast(ss3, steps3);
  }

  /** So does the other one: the pause is there when the pass checks, and the lookup fails. */
  lemma FailedLookupHappens()
    ensures exists ss: seq<State>, steps: seq<Step>, k: nat ::
              0 < k && ClaimsInPause(ss, steps, k) && steps[k - 1].SchedCheck?
  {
    var ss1, steps1 := OneQueuedRun();
    var added := ss1[|ss1| - 1];
    var ss2, steps2 := OneMoreStep(ss1, steps1, PauseStep("usage limit", 1000));
    var paused := ss2[|ss2| - 1];
    assert paused.db.runs == added.db.runs;
    var ss3, steps3 := OneMoreStep(ss2, steps2, SchedCheck(0, 10, true));
    var checked := ss3[|ss3| - 1];
    assert PcOf(checked, 0) == SchedChecked(10) && checked.db == paused.db;
    var ss, steps := ClaimLast(ss3, steps3);
    assert steps[|steps3| - 1] == steps3[|steps3| - 1];
  }

  lemma ClaimLast(ss: seq<State>, steps: seq<Step>) returns (ss': seq<State>, steps': seq<Step>)
    requires IsRun(ss, steps)
    requires var s := ss[|steps|];
             && PcOf(s, 0) == SchedChecked(10) && Paused(s.db, WORKERS, 20) && WellKeyed(s.db) && s.db.cancels == map[]
             && s.db.runs.Keys == {"r"} && s.db.runs["r"].status == Queued && s.db.runs["r"].prNumber == 0
    ensures ClaimsInPause(ss', steps', |steps|) && |steps'| == |steps| + 1 && steps'[..|steps|] == steps
  {
    QueuedRunIsNext(ss[|steps|].db, "r");
    ss', steps' := OneMoreStep(ss, steps, SchedClaim(0, "", 20));
    assert ss'[|steps|] == ss[|steps|];
  }

  lemma OneMoreStep(ss: seq<State>, steps: seq<Step>, step: Step) returns (ss': seq<State>, steps': seq<Step>)
    requires IsRun(ss, steps) && Enabled(ss[|ss| - 1], step)
    ensures IsRun(ss', steps') && |steps'| == |steps| + 1 && steps'[|steps|] == step && steps'[..|steps|] == steps
    ensures ss'[|ss| - 1] == ss[|ss| - 1] && ss'[|ss'| - 1] == Apply(ss[|ss| - 1], step)
  {
    ss', steps' := ss + [Apply(ss[|ss| - 1], step)], steps + [step];
    forall i | 0 <= i < |steps'|
      ensures Enabled(ss'[i], steps'[i]) && ss'[i + 1] == Apply(ss'[i], steps'[i])
    {
      if i < |steps| {
        assert ss[i + 1] == Apply(ss[i], steps[i]);
      }
    }
  }

  lemma OneQueuedRun() returns (ss: seq<State>, steps: seq<Step>)
    ensures IsRun(ss, steps)
    ensures var s := ss[|ss| - 1];
            && WellKeyed(s.db) && s.db.runs.Keys == {"r"} && s.db.runs["r"].status == Queued
                && s.db.runs["r"].prNumber == 0
            && s.db.cancels == map[] && s.db.pauses == map[] && s.threads == map[]
  {
    ss, steps := [INIT], [];
    ss, steps := OneMoreStep(ss, steps, AddRunStep("r", "t", 0, PRNone, "", 1, 200));
    AddedRunStays(INIT.db, "r", "t", 0, PRNone, "", 1, 200);
    AddRunKeeps(INIT.db, "r", "t", 0, PRNone, "", 1, 200);
  }

  lemma QueuedRunIsNext(db: Tables, id: RunId)
    requires WellKeyed(db) && db.runs.Keys == {id} && db.cancels == map[]
    requires db.runs[id].status == Queued && db.runs[id].prNumber == 0
    ensures NextRun(db, "").Some?
  {
    assert Eligible(db, id);
    assert id in EligibleIds(db);
  }
}
