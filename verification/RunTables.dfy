/** The statements that touch the run tables, each as a function from the tables before
    to the tables after, and what every one of them keeps. */
module RunTables {
  import opened RunTypes

  datatype Tables = Tables(
    runs: map<RunId, Run>,
    tasks: map<TaskId, Task>,
    cancels: map<RunId, CancelRequest>,
    leases: map<RunId, RunLease>,
    execs: map<RunId, Execution>,
    pauses: map<string, SchedulerPause>,
    nextSeq: nat)

  const EMPTY := Tables(map[], map[], map[], map[], map[], map[], 1)

  // ---------- invariants ----------

  predicate Numbered(db: Tables, id: RunId, n: nat) {
    id in db.runs && db.runs[id].seqNo == n
  }

  /** Run rows are keyed by id, numbered without repetition, and belong to a task. */
  ghost predicate WellKeyed(db: Tables) {
    && (forall id :: id in db.runs ==>
          && db.runs[id].id == id
          && db.runs[id].seqNo < db.nextSeq
          && db.runs[id].taskId in db.tasks)
    && (forall a, b, n :: Numbered(db, a, n) && Numbered(db, b, n) ==> a == b)
  }

  predicate RunningFor(db: Tables, id: RunId, taskId: TaskId) {
    id in db.runs && db.runs[id].taskId == taskId && db.runs[id].status == Running
  }

  ghost predicate OneRunningPerTask(db: Tables) {
    forall a, b, t :: RunningFor(db, a, t) && RunningFor(db, b, t) ==> a == b
  }

  /** What a status says about a row's timestamps and reason. */
  predicate StampsFit(r: Run) {
    && (r.completedAt.Some? <==> IsFinal(r.status))
    && (r.status == Queued ==> r.startedAt.None?)
    && (r.status == Running ==> r.startedAt.Some?)
    && (!IsFinal(r.status) ==> r.reason == NoReason)
  }

  ghost predicate Stamped(db: Tables) {
    forall id :: id in db.runs ==> StampsFit(db.runs[id])
  }

  ghost predicate Inv(db: Tables) {
    WellKeyed(db) && OneRunningPerTask(db) && Stamped(db)
  }

  /** One statement's effect on the rows that other callers may hold snapshots of: a surviving
      row moves along the transition table and keeps its identity, a new row is in `added`, and a
      cancel request disappears only when its run is final or gone. */
  ghost predicate Evolves(db: Tables, db': Tables, added: set<RunId>) {
    && (forall id :: id in db.runs && id in db'.runs ==>
          && CanTransition(db.runs[id].status, db'.runs[id].status)
          && db'.runs[id].taskId == db.runs[id].taskId
          && db'.runs[id].seqNo == db.runs[id].seqNo
          && db'.runs[id].createdAt == db.runs[id].createdAt)
    && (forall id :: id in db'.runs && id !in db.runs ==> id in added)
    && (forall id :: id in db.cancels && id !in db'.cancels && id in db'.runs ==> IsFinal(db'.runs[id].status))
  }

  // ---------- rows in (created_at, seq) order ----------

  predicate Before(a: Run, b: Run) {
    a.createdAt < b.createdAt || (a.createdAt == b.createdAt && a.seqNo < b.seqNo)
  }

  ghost predicate IsFirst(runs: map<RunId, Run>, s: set<RunId>, id: RunId)
    requires s <= runs.Keys
  {
    id in s && forall o :: o in s && o != id ==> Before(runs[id], runs[o])
  }

  lemma NumbersDiffer(db: Tables, a: RunId, b: RunId)
    requires WellKeyed(db) && a in db.runs && b in db.runs && a != b
    ensures db.runs[a].seqNo != db.runs[b].seqNo
  {
    assert Numbered(db, a, db.runs[a].seqNo) && Numbered(db, b, db.runs[b].seqNo);
  }

  lemma {:induction false} FirstExists(db: Tables, s: set<RunId>)
    requires WellKeyed(db) && s <= db.runs.Keys && s != {}
    ensures exists id :: IsFirst(db.runs, s, id)
  {
    var x :| x in s;
    if s == {x} {
      assert IsFirst(db.runs, s, x);
    } else {
      FirstExists(db, s - {x});
      var y :| IsFirst(db.runs, s - {x}, y);
      NumbersDiffer(db, x, y);
      var best := if Before(db.runs[x], db.runs[y]) then x else y;
      assert IsFirst(db.runs, s, best);
    }
  }

  lemma FirstIsUnique(db: Tables, s: set<RunId>, a: RunId, b: RunId)
    requires s <= db.runs.Keys && IsFirst(db.runs, s, a) && IsFirst(db.runs, s, b)
    ensures a == b
  {
  }

  // ---------- the claim ----------

  ghost predicate TaskBusy(db: Tables, taskId: TaskId) {
    exists o :: RunningFor(db, o, taskId)
  }

  /** The WHERE clause of the claim: queued, its pull request not a draft, no running run of
      its task, no cancel request. */
  ghost predicate Eligible(db: Tables, id: RunId) {
    && id in db.runs
    && db.runs[id].status == Queued
    && db.runs[id].taskId in db.tasks
    && (db.runs[id].prNumber == 0 || !db.tasks[db.runs[id].taskId].prDraft)
    && !TaskBusy(db, db.runs[id].taskId)
    && id !in db.cancels
  }

  ghost function EligibleIds(db: Tables): set<RunId> {
    set id | id in db.runs && Eligible(db, id)
  }

  ghost function EligibleIdsOf(db: Tables, taskId: TaskId): set<RunId> {
    set id | id in db.runs && Eligible(db, id) && db.runs[id].taskId == taskId
  }

  /** Which runs the claim looks at: those of the preferred task if any is eligible. */
  ghost function ClaimPool(db: Tables, preferred: TaskId): set<RunId> {
    if preferred != "" && EligibleIdsOf(db, preferred) != {} then EligibleIdsOf(db, preferred) else EligibleIds(db)
  }

  ghost function NextRun(db: Tables, preferred: TaskId): (next: Option<RunId>)
    requires WellKeyed(db)
    ensures next.None? <==> EligibleIds(db) == {}
    ensures next.Some? ==>
              ClaimPool(db, preferred) <= db.runs.Keys && IsFirst(db.runs, ClaimPool(db, preferred), next.value)
  {
    var pool := ClaimPool(db, preferred);
    if pool == {} then None
    else
      FirstExists(db, pool);
      var id :| IsFirst(db.runs, pool, id);
      Some(id)
  }

  /** No run of the pool was created earlier than the next one, and of those created with it none
      has a lower number; the pool is the preferred task's if it has an eligible run. */
  lemma NextRunIsOldest(db: Tables, preferred: TaskId, o: RunId)
    requires WellKeyed(db) && NextRun(db, preferred).Some? && Eligible(db, o)
    ensures var next := db.runs[NextRun(db, preferred).value];
            && Eligible(db, next.id)
            && (next.taskId == preferred || preferred == "" || EligibleIdsOf(db, preferred) == {})
            && (next.createdAt < db.runs[o].createdAt
                || (next.createdAt == db.runs[o].createdAt && next.seqNo <= db.runs[o].seqNo)
                || (next.taskId == preferred && db.runs[o].taskId != preferred))
  {
    var id := NextRun(db, preferred).value;
    assert o in EligibleIds(db) && id in ClaimPool(db, preferred);
    if o in ClaimPool(db, preferred) && o != id {
      assert Before(db.runs[id], db.runs[o]);
    }
  }

  function StartRow(r: Run, now: int): Run {
    r.(status := Running, error := "", reason := NoReason, startedAt := Some(now))
  }

  ghost function ClaimNext(db: Tables, preferred: TaskId, now: int): Tables
    requires WellKeyed(db)
  {
    match NextRun(db, preferred)
    case None => db
    case Some(id) => db.(runs := db.runs[id := StartRow(db.runs[id], now)])
  }

  /** ClaimRunStart: the same guard on other running runs, but for a named run and blind to
      cancel requests and drafts. */
  ghost predicate CanStart(db: Tables, id: RunId) {
    id in db.runs && db.runs[id].status == Queued && !TaskBusy(db, db.runs[id].taskId)
  }

  ghost function ClaimStart(db: Tables, id: RunId, now: int): Tables {
    if CanStart(db, id) then db.(runs := db.runs[id := StartRow(db.runs[id], now)]) else db
  }

  // ---------- UpdateRun and the state machine built on it ----------

  datatype UpdateResult = Updated | NotFound | Rejected

  /** UpdateRun writes the row `r` for an existing run, unless the status change is not in the
      table; a row that is not final loses its reason, and a pull request number also goes to
      the task. */
  function UpdateOutcome(db: Tables, r: Run): UpdateResult {
    if r.id !in db.runs then NotFound
    else if !CanTransition(db.runs[r.id].status, r.status) then Rejected
    else Updated
  }

  function UpdateRun(db: Tables, r: Run): Tables {
    if UpdateOutcome(db, r) != Updated then db
    else
      var row := if IsFinal(r.status) then r else r.(reason := NoReason);
      var tasks := if r.prNumber > 0 && r.taskId in db.tasks
                   then db.tasks[r.taskId := db.tasks[r.taskId].(prNumber := r.prNumber)] else db.tasks;
      db.(runs := db.runs[r.id := row], tasks := tasks)
  }

  /** The pull request fields that a batched transition may change. */
  datatype PRPatch = PRPatch(prNumber: nat, prURL: string, headSHA: string, prStatus: Option<PRStatus>)

  const NO_PATCH := PRPatch(0, "", "", None)

  function Patched(r: Run, p: PRPatch): Run {
    r.(prNumber := if p.prNumber > r.prNumber then p.prNumber else r.prNumber,
       prURL := if p.prURL != "" then p.prURL else r.prURL,
       headSHA := if p.headSHA != "" then p.headSHA else r.headSHA,
       prStatus := if p.prStatus.Some? then p.prStatus.value else r.prStatus)
  }

  function TransitionRow(r: Run, to: RunStatus, error: string, reason: StatusReason, now: int): Run {
    r.(status := to, error := error,
       reason := if IsFinal(to) then reason else NoReason,
       completedAt := if IsFinal(to) then Some(now) else r.completedAt,
       startedAt := if to == Running then Some(now) else r.startedAt)
  }

  /** A row that ended: nothing but its status, error, reason and completion time differs. */
  function AtEnd(r: Run, to: RunStatus, error: string, reason: StatusReason, now: int): Run {
    r.(status := to, error := error, reason := reason, completedAt := Some(now))
  }

  function BatchRow(r: Run, id: RunId, to: RunStatus, patch: PRPatch, error: string, reason: StatusReason,
                    now: int): Run
  {
    TransitionRow(Patched(r, patch), to, error, reason, now).(id := id)
  }

  function TransitionOutcome(db: Tables, id: RunId, to: RunStatus): UpdateResult {
    if id !in db.runs then NotFound else if !CanTransition(db.runs[id].status, to) then Rejected else Updated
  }

  /** Transition is TransitionBatch with no patch. */
  function TransitionBatch(db: Tables, id: RunId, to: RunStatus, patch: PRPatch,
                           error: string, reason: StatusReason, now: int): Tables {
    if id !in db.runs then db
    else UpdateRun(db, BatchRow(db.runs[id], id, to, patch, error, reason, now))
  }

  function Transition(db: Tables, id: RunId, to: RunStatus, error: string, reason: StatusReason, now: int): Tables {
    TransitionBatch(db, id, to, NO_PATCH, error, reason, now)
  }

  function RequeueRow(r: Run): Run {
    if r.status == Running
    then r.(status := Queued, error := "", reason := NoReason, startedAt := None, completedAt := None)
    else r
  }

  function Requeue(db: Tables, id: RunId): Tables {
    if id !in db.runs then db else UpdateRun(db, RequeueRow(db.runs[id]).(id := id))
  }

  function PatchRun(db: Tables, id: RunId, patch: PRPatch): Tables {
    if id !in db.runs then db else UpdateRun(db, Patched(db.runs[id], patch).(id := id))
  }

  // ---------- whole-task and table statements ----------

  function CancelRowOf(r: Run, taskId: TaskId, error: string, reason: StatusReason, now: int): Run {
    if r.taskId == taskId && r.status == Queued
    then r.(status := Canceled, error := error, reason := reason, completedAt := Some(now)) else r
  }

  function CancelQueued(db: Tables, taskId: TaskId, error: string, reason: StatusReason, now: int): Tables {
    db.(runs := map id | id in db.runs :: CancelRowOf(db.runs[id], taskId, error, reason, now))
  }

  function NewerThan(runs: map<RunId, Run>, id: RunId): set<RunId>
    requires id in runs
  {
    set o | o in runs && runs[o].seqNo > runs[id].seqNo
  }

  /** Keeps the `keep` newest rows. */
  function TrimOldRuns(runs: map<RunId, Run>, keep: nat): map<RunId, Run> {
    map id | id in runs && |NewerThan(runs, id)| < keep :: runs[id]
  }

  /** How many rows the orchestrator lists at most when it looks through all runs. */
  const LISTED: nat := 10000

  function UpsertTask(tasks: map<TaskId, Task>, taskId: TaskId, prNumber: nat): map<TaskId, Task> {
    if taskId in tasks
    then tasks[taskId := tasks[taskId].(prNumber := if prNumber > 0 then prNumber else tasks[taskId].prNumber)]
    else tasks[taskId := Task(false, false, prNumber)]
  }

  function NewRow(db: Tables, id: RunId, taskId: TaskId, prNumber: nat, prStatus: PRStatus, headSHA: string,
                  now: int): Run
  {
    Run(id, taskId, db.nextSeq, now, Queued, NoReason, "", prNumber, "", prStatus, headSHA, None, None)
  }

  /** AddRun before its trim. */
  function InsertRun(db: Tables, id: RunId, taskId: TaskId, prNumber: nat, prStatus: PRStatus, headSHA: string,
                     now: int): Tables
  {
    db.(runs := db.runs[id := NewRow(db, id, taskId, prNumber, prStatus, headSHA, now)],
        tasks := UpsertTask(db.tasks, taskId, prNumber),
        nextSeq := db.nextSeq + 1)
  }

  /** AddRun fails on a repeated id; otherwise it upserts the task, appends a queued row and
      trims the table, in one transaction. */
  function AddRun(db: Tables, id: RunId, taskId: TaskId, prNumber: nat, prStatus: PRStatus, headSHA: string,
                  now: int, maxRuns: nat): Tables {
    if id in db.runs then db
    else
      var inserted := InsertRun(db, id, taskId, prNumber, prStatus, headSHA, now);
      inserted.(runs := TrimOldRuns(inserted.runs, maxRuns))
  }

  function RequestCancel(db: Tables, id: RunId, req: CancelRequest): Tables {
    db.(cancels := db.cancels[id := req])
  }

  function ClearCancel(db: Tables, id: RunId): Tables {
    db.(cancels := db.cancels - {id})
  }

  function UpsertLease(db: Tables, id: RunId, owner: InstanceId, now: int, ttl: int): Tables {
    db.(leases := db.leases[id := RunLease(owner, now, now + (if ttl <= 0 then RUN_LEASE_TTL else ttl))])
  }

  function DeleteLease(db: Tables, id: RunId): Tables {
    db.(leases := db.leases - {id})
  }

  function DeleteLeaseFor(db: Tables, id: RunId, owner: InstanceId): Tables {
    if id in db.leases && db.leases[id].owner == owner then DeleteLease(db, id) else db
  }

  function UpsertExecution(db: Tables, id: RunId, status: ExecutionStatus, exitCode: int): Tables {
    db.(execs := db.execs[id := Execution(status, exitCode)])
  }

  function SetExecution(db: Tables, id: RunId, status: ExecutionStatus, exitCode: int): Tables {
    if id in db.execs then db.(execs := db.execs[id := Execution(status, exitCode)]) else db
  }

  function DeleteExecution(db: Tables, id: RunId): Tables {
    db.(execs := db.execs - {id})
  }

  function SetTaskCompleted(db: Tables, taskId: TaskId, completed: bool): Tables {
    if taskId in db.tasks then db.(tasks := db.tasks[taskId := db.tasks[taskId].(completed := completed)]) else db
  }

  function PauseScheduler(db: Tables, scope: string, reason: string, until: int): Tables {
    if scope in db.pauses && db.pauses[scope].until > until then db
    else db.(pauses := db.pauses[scope := SchedulerPause(reason, until)])
  }

  predicate Paused(db: Tables, scope: string, now: int) {
    scope in db.pauses && db.pauses[scope].until > now
  }

  // ---------- every statement keeps the invariant and evolves the tables ----------

  /** Rows may be dropped or rewritten, as long as no row becomes Running that was not. */
  lemma RewrittenRowsKeep(db: Tables, db': Tables)
    requires Inv(db) && db'.nextSeq >= db.nextSeq && db.tasks.Keys <= db'.tasks.Keys
    requires forall id :: id in db'.runs ==>
                            && id in db.runs
                            && db'.runs[id].id == id
                            && db'.runs[id].seqNo == db.runs[id].seqNo
                            && db'.runs[id].taskId == db.runs[id].taskId
                            && (db'.runs[id].status == Running ==> db.runs[id].status == Running)
                            && StampsFit(db'.runs[id])
    ensures Inv(db')
  {
    assert forall a, n :: Numbered(db', a, n) ==> Numbered(db, a, n);
    assert forall a, t :: RunningFor(db', a, t) ==> RunningFor(db, a, t);
  }

  lemma ClaimNextKeeps(db: Tables, preferred: TaskId, now: int)
    requires Inv(db)
    ensures Inv(ClaimNext(db, preferred, now)) && Evolves(db, ClaimNext(db, preferred, now), {})
    ensures NextRun(db, preferred).Some? ==>
              var id := NextRun(db, preferred).value;
              Eligible(db, id) && ClaimNext(db, preferred, now).runs[id].status == Running
  {
    if NextRun(db, preferred).Some? {
      var id := NextRun(db, preferred).value;
      assert Eligible(db, id);
      StartKeeps(db, id, now);
    }
  }

  lemma StartKeeps(db: Tables, id: RunId, now: int)
    requires Inv(db) && CanStart(db, id)
    ensures var db' := db.(runs := db.runs[id := StartRow(db.runs[id], now)]);
            Inv(db') && Evolves(db, db', {})
  {
    var db' := db.(runs := db.runs[id := StartRow(db.runs[id], now)]);
    assert forall a, n :: Numbered(db', a, n) ==> Numbered(db, a, n);
    assert forall a, t :: RunningFor(db', a, t) ==> a == id || RunningFor(db, a, t);
  }

  lemma ClaimStartKeeps(db: Tables, id: RunId, now: int)
    requires Inv(db)
    ensures Inv(ClaimStart(db, id, now)) && Evolves(db, ClaimStart(db, id, now), {})
  {
    if CanStart(db, id) {
      StartKeeps(db, id, now);
    }
  }

  /** The orchestrator never asks for a transition to Running, which is why the guarded
      claims are the only source of running runs. */
  lemma UpdateKeeps(db: Tables, r: Run)
    requires Inv(db)
    requires r.id in db.runs ==>
               && r.taskId == db.runs[r.id].taskId && r.seqNo == db.runs[r.id].seqNo
                   && r.createdAt == db.runs[r.id].createdAt
               && (r.status == Running ==> db.runs[r.id].status == Running)
               && (CanTransition(db.runs[r.id].status, r.status) ==>
                   StampsFit(if IsFinal(r.status) then r else r.(reason := NoReason)))
    ensures Inv(UpdateRun(db, r)) && Evolves(db, UpdateRun(db, r), {})
  {
    if UpdateOutcome(db, r) == Updated {
      var row := if IsFinal(r.status) then r else r.(reason := NoReason);
      OneRowKeeps(db, UpdateRun(db, r), row);
    }
  }

  lemma OneRowKeeps(db: Tables, db': Tables, row: Run)
    requires Inv(db) && row.id in db.runs && db'.runs == db.runs[row.id := row] && db'.tasks.Keys == db.tasks.Keys
    requires db'.nextSeq == db.nextSeq && db'.cancels == db.cancels
    requires var r := db.runs[row.id];
             && row.taskId == r.taskId && row.seqNo == r.seqNo && row.createdAt == r.createdAt
             && (row.status == Running ==> r.status == Running) && CanTransition(r.status, row.status) && StampsFit(row)
    ensures Inv(db') && Evolves(db, db', {})
  {
    RewrittenRowsKeep(db, db');
  }

  lemma TransitionBatchKeeps(db: Tables, id: RunId, to: RunStatus, patch: PRPatch, error: string,
                             reason: StatusReason, now: int)
    requires Inv(db) && IsFinal(to)
    ensures var db' := TransitionBatch(db, id, to, patch, error, reason, now);
            Inv(db') && Evolves(db, db', {})
  {
    if id in db.runs {
      UpdateKeeps(db, BatchRow(db.runs[id], id, to, patch, error, reason, now));
    }
  }

  /** A transition is the update of its row, and safe for everybody if it is refused or has a
      final target. */
  lemma BatchFacts(db: Tables, id: RunId, to: RunStatus, patch: PRPatch, error: string, reason: StatusReason, now: int)
    requires Inv(db)
    ensures id !in db.runs ==> TransitionBatch(db, id, to, patch, error, reason, now) == db
    ensures id in db.runs ==>
              var row := BatchRow(db.runs[id], id, to, patch, error, reason, now);
              && UpdateOutcome(db, row) == TransitionOutcome(db, id, to)
              && TransitionBatch(db, id, to, patch, error, reason, now) == UpdateRun(db, row)
    ensures IsFinal(to) || TransitionOutcome(db, id, to) != Updated ==>
              Inv(TransitionBatch(db, id, to, patch, error, reason, now))
  {
    if IsFinal(to) {
      TransitionBatchKeeps(db, id, to, patch, error, reason, now);
    }
  }

  /** When exactly an allowed transition leaves a row whose stamps fit its status: unless it puts
      a running run back in the queue, which keeps the start time. That is what Requeue is for. */
  lemma TransitionFitsIff(r: Run, to: RunStatus, error: string, reason: StatusReason, now: int)
    requires StampsFit(r) && CanTransition(r.status, to)
    ensures StampsFit(TransitionRow(r, to, error, reason, now)) <==> !(r.status == Running && to == Queued)
    ensures StampsFit(RequeueRow(r))
  {
  }

  /** When exactly an allowed transition keeps runs of a task serial: unless it starts the run
      while another run of the task is running. */
  lemma TransitionSerialIff(db: Tables, id: RunId, to: RunStatus, error: string, reason: StatusReason, now: int)
    requires OneRunningPerTask(db) && TransitionOutcome(db, id, to) == Updated && db.runs[id].id == id
    ensures OneRunningPerTask(Transition(db, id, to, error, reason, now)) <==>
            !(to == Running && db.runs[id].status != Running && TaskBusy(db, db.runs[id].taskId))
  {
    var db' := Transition(db, id, to, error, reason, now);
    var taskId := db.runs[id].taskId;
    assert forall a, t :: a != id ==> (RunningFor(db', a, t) <==> RunningFor(db, a, t));
    assert RunningFor(db', id, taskId) <==> to == Running;
    if to == Running && db.runs[id].status != Running && TaskBusy(db, taskId) {
      var o :| RunningFor(db, o, taskId);
      assert RunningFor(db', o, taskId) && RunningFor(db', id, taskId) && o != id;
    } else {
      assert forall t :: RunningFor(db', id, t) ==> t == taskId;
      assert to == Running && db.runs[id].status == Running ==> RunningFor(db, id, taskId);
      assert to == Running && db.runs[id].status != Running ==> forall o :: !RunningFor(db, o, taskId);
    }
  }

  lemma RequeueKeeps(db: Tables, id: RunId)
    requires Inv(db)
    ensures Inv(Requeue(db, id)) && Evolves(db, Requeue(db, id), {})
  {
    if id in db.runs {
      UpdateKeeps(db, RequeueRow(db.runs[id]).(id := id));
    }
  }

  lemma PatchRunKeeps(db: Tables, id: RunId, patch: PRPatch)
    requires Inv(db)
    ensures Inv(PatchRun(db, id, patch)) && Evolves(db, PatchRun(db, id, patch), {})
  {
    if id in db.runs {
      UpdateKeeps(db, Patched(db.runs[id], patch).(id := id));
    }
  }

  lemma CancelQueuedKeeps(db: Tables, taskId: TaskId, error: string, reason: StatusReason, now: int)
    requires Inv(db)
    ensures var db' := CancelQueued(db, taskId, error, reason, now);
            Inv(db') && Evolves(db, db', {})
  {
    forall r: Run
      ensures var r' := CancelRowOf(r, taskId, error, reason, now);
              && r'.id == r.id && r'.seqNo == r.seqNo && r'.taskId == r.taskId && r'.createdAt == r.createdAt
              && CanTransition(r.status, r'.status) && (r'.status == Running ==> r.status == Running)
              && (StampsFit(r) ==> StampsFit(r'))
    {
    }
    RewrittenRowsKeep(db, CancelQueued(db, taskId, error, reason, now));
  }

  lemma InsertRunKeeps(db: Tables, id: RunId, taskId: TaskId, prNumber: nat, prStatus: PRStatus, headSHA: string,
                       now: int)
    requires Inv(db) && id !in db.runs
    ensures Inv(InsertRun(db, id, taskId, prNumber, prStatus, headSHA, now))
  {
    var db' := InsertRun(db, id, taskId, prNumber, prStatus, headSHA, now);
    assert forall a, n: nat :: Numbered(db', a, n) ==>
                                 (a == id && n == db.nextSeq) || (Numbered(db, a, n) && n < db.nextSeq);
    assert forall a, t :: RunningFor(db', a, t) ==> RunningFor(db, a, t);
  }

  lemma AddRunKeeps(db: Tables, id: RunId, taskId: TaskId, prNumber: nat, prStatus: PRStatus, headSHA: string,
                    now: int, maxRuns: nat)
    requires Inv(db)
    ensures Inv(AddRun(db, id, taskId, prNumber, prStatus, headSHA, now, maxRuns))
    ensures Evolves(db, AddRun(db, id, taskId, prNumber, prStatus, headSHA, now, maxRuns), {id})
  {
    if id !in db.runs {
      InsertRunKeeps(db, id, taskId, prNumber, prStatus, headSHA, now);
      var inserted := InsertRun(db, id, taskId, prNumber, prStatus, headSHA, now);
      RewrittenRowsKeep(inserted, AddRun(db, id, taskId, prNumber, prStatus, headSHA, now, maxRuns));
    }
  }

  /** Trimming keeps the newest rows: a row goes only if every older row goes too. */
  lemma TrimDropsOldest(db: Tables, keep: nat, a: RunId, b: RunId)
    requires WellKeyed(db) && a in TrimOldRuns(db.runs, keep) && b in db.runs && b !in TrimOldRuns(db.runs, keep)
    ensures db.runs[b].seqNo < db.runs[a].seqNo
  {
    NumbersDiffer(db, a, b);
    if db.runs[b].seqNo > db.runs[a].seqNo {
      SubsetSize(NewerThan(db.runs, b), NewerThan(db.runs, a));
    }
  }

  /** ... leaves at most `keep` of them, and touches no table that fits. */
  lemma TrimFits(db: Tables, keep: nat)
    requires WellKeyed(db)
    ensures |TrimOldRuns(db.runs, keep)| <= keep
    ensures |db.runs| <= keep ==> TrimOldRuns(db.runs, keep) == db.runs
  {
    var kept := TrimOldRuns(db.runs, keep).Keys;
    assert |kept| == |TrimOldRuns(db.runs, keep)| && |db.runs.Keys| == |db.runs|;
    if kept != {} {
      var oldest := OldestOf(db, kept);
      SubsetSize(kept - {oldest}, NewerThan(db.runs, oldest));
    }
    if |db.runs| <= keep {
      forall id | id in db.runs ensures id in kept {
        SubsetSize(NewerThan(db.runs, id), db.runs.Keys - {id});
      }
    }
  }

  lemma {:induction false} OldestOf(db: Tables, s: set<RunId>) returns (id: RunId)
    requires WellKeyed(db) && s <= db.runs.Keys && s != {}
    ensures id in s && forall o :: o in s && o != id ==> db.runs[o].seqNo > db.runs[id].seqNo
  {
    var x :| x in s;
    if s == {x} {
      id := x;
    } else {
      var y := OldestOf(db, s - {x});
      NumbersDiffer(db, x, y);
      id := if db.runs[x].seqNo < db.runs[y].seqNo then x else y;
    }
  }

  predicate IsNewest(runs: map<RunId, Run>, s: set<RunId>, id: RunId)
    requires s <= runs.Keys
  {
    id in s && forall o :: o in s && o != id ==> runs[id].seqNo > runs[o].seqNo
  }

  lemma {:induction false} NewestExists(db: Tables, s: set<RunId>)
    requires WellKeyed(db) && s <= db.runs.Keys && s != {}
    ensures exists id :: IsNewest(db.runs, s, id)
  {
    var x :| x in s;
    if s == {x} {
      assert IsNewest(db.runs, s, x);
    } else {
      NewestExists(db, s - {x});
      var y :| IsNewest(db.runs, s - {x}, y);
      NumbersDiffer(db, x, y);
      var best := if db.runs[x].seqNo > db.runs[y].seqNo then x else y;
      assert IsNewest(db.runs, s, best);
    }
  }

  lemma {:induction false} SubsetSize<T>(a: set<T>, b: set<T>)
    requires a <= b
    ensures |a| <= |b|
  {
    if a != {} {
      var x :| x in a;
      SubsetSize(a - {x}, b - {x});
    }
  }

  lemma NumbersDecideTrim(runs: map<RunId, Run>, runs': map<RunId, Run>, keep: nat)
    requires runs'.Keys == runs.Keys && forall id :: id in runs ==> runs'[id].seqNo == runs[id].seqNo
    ensures TrimOldRuns(runs', keep).Keys == TrimOldRuns(runs, keep).Keys
  {
    forall id | id in runs
      ensures NewerThan(runs', id) == NewerThan(runs, id)
    {
    }
  }

  /** The run just added survives its own trim. */
  lemma AddedRunStays(db: Tables, id: RunId, taskId: TaskId, prNumber: nat, prStatus: PRStatus, headSHA: string,
                      now: int, maxRuns: nat)
    requires Inv(db) && id !in db.runs && maxRuns > 0
    ensures var db' := AddRun(db, id, taskId, prNumber, prStatus, headSHA, now, maxRuns);
            id in db'.runs && db'.runs[id].status == Queued && db'.runs[id].taskId == taskId
  {
    var runs := db.runs[id := NewRow(db, id, taskId, prNumber, prStatus, headSHA, now)];
    assert NewerThan(runs, id) == {};
  }
}
