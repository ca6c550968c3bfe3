/** The run state machine, and the pass that claims queued runs for one instance. */
module Scheduling {
  import opened RunTypes
  import opened RunStores
  import T = RunTables

  /** The orchestrator's way to change a status: validated, with timestamps and reason managed. */
  class RunStateMachine {
    const store: RunStore

    constructor (store: RunStore)
      ensures this.store == store
    {
      this.store := store;
    }

    /** Accepts any change that the table allows. Only a final target is sure to keep what the
        table's other users rely on. */
    method TransitionBatch(id: RunId, to: RunStatus, patch: T.PRPatch, error: string, reason: StatusReason, now: int)
      returns (result: T.UpdateResult)
      requires store.Valid()
      modifies store`runs, store`tasks
      ensures result == T.TransitionOutcome(old(store.Db()), id, to)
      ensures store.Db() == T.TransitionBatch(old(store.Db()), id, to, patch, error, reason, now)
      ensures IsFinal(to) || result != T.Updated ==> store.Valid()
    {
      ghost var db := store.Db();
      T.BatchFacts(db, id, to, patch, error, reason, now);
      result := store.UpdateRun(id, (r: Run) =>
        r.(id := id,
           prNumber := if patch.prNumber > r.prNumber then patch.prNumber else r.prNumber,
           prURL := if patch.prURL != "" then patch.prURL else r.prURL,
           headSHA := if patch.headSHA != "" then patch.headSHA else r.headSHA,
           prStatus := if patch.prStatus.Some? then patch.prStatus.value else r.prStatus,
           status := to,
           error := error,
           reason := if IsFinal(to) then reason else NoReason,
           completedAt := if IsFinal(to) then Some(now) else r.completedAt,
           startedAt := if to == Running then Some(now) else r.startedAt));
    }

    method Transition(id: RunId, to: RunStatus, error: string, reason: StatusReason, now: int)
      returns (result: T.UpdateResult)
      requires store.Valid()
      modifies store`runs, store`tasks
      ensures result == T.TransitionOutcome(old(store.Db()), id, to)
      ensures store.Db() == T.Transition(old(store.Db()), id, to, error, reason, now)
      ensures IsFinal(to) || result != T.Updated ==> store.Valid()
    {
      result := TransitionBatch(id, to, T.NO_PATCH, error, reason, now);
    }

    /** Does nothing to a run that is not running. */
    method Requeue(id: RunId) returns (result: T.UpdateResult)
      requires store.Valid()
      modifies store`runs, store`tasks
      ensures store.Valid() && store.Db() == T.Requeue(old(store.Db()), id)
      ensures result == if id in old(store.runs) then T.Updated else T.NotFound
    {
      T.RequeueKeeps(store.Db(), id);
      result := store.UpdateRun(id, (r: Run) =>
        if r.status != Running then r.(id := id)
        else r.(id := id, status := Queued, error := "", reason := NoReason, startedAt := None, completedAt := None));
    }
  }

  // ---------- what a pass does to the tables ----------

  /** What happens around one iteration of the loop: the clock readings, whether the lookup of the
      pause, the claim or the lease write fails, whether a cancel request slips in after the
      claim, and whether the server starts draining then. */
  datatype Turn = Turn(now: int, lookFails: bool, claimFails: bool, cancel: Option<CancelRequest>, drains: bool,
                       leaseAt: int, leaseFails: bool)

  predicate Calm(turn: Turn) {
    turn.cancel.None? && !turn.drains
  }

  /** What becomes of the run claimed in a turn. */
  function ResultOf(turn: Turn): RunStatus {
    if turn.cancel.Some? || turn.drains then Canceled else if turn.leaseFails then Failed else Running
  }

  /** The tables after the turn, from the tables `d` right after its claim. */
  function AfterTurn(d: T.Tables, id: RunId, turn: Turn, me: InstanceId): T.Tables {
    if turn.cancel.Some? then
      var req := turn.cancel.value;
      T.ClearCancel(T.Transition(T.RequestCancel(d, id, req), id, Canceled, req.reason, req.source, turn.now), id)
    else if turn.drains then T.Transition(d, id, Canceled, "orchestrator shutting down", Shutdown, turn.now)
    else if turn.leaseFails then T.Transition(d, id, Failed, "claim run lease", NoReason, turn.now)
    else T.UpsertLease(d, id, me, turn.leaseAt, RUN_LEASE_TTL)
  }

  datatype Stop = Draining | PausedWorkers | AtCapacity | StoreError | NothingEligible

  predicate SameLease(d: T.Tables, d': T.Tables, id: RunId) {
    (id in d.leases <==> id in d'.leases) && (id in d.leases ==> d'.leases[id] == d.leases[id])
  }

  /** Only the status has changed, and what goes with it. */
  predicate SameButForStatus(r: Run, r': Run) {
    r' == r.(status := r'.status, reason := r'.reason, error := r'.error, startedAt := r'.startedAt,
             completedAt := r'.completedAt)
  }

  /** A queued run that the pass claimed: it runs under a lease of this instance, or it was
      canceled or failed right away. */
  predicate Taken(d: T.Tables, d': T.Tables, id: RunId, me: InstanceId, since: int, calm: bool)
    requires id in d.runs && id in d'.runs
  {
    && d.runs[id].status == Queued && id !in d.cancels
    && SameButForStatus(d.runs[id], d'.runs[id])
    && match d'.runs[id].status
       case Running => id in d'.leases && d'.leases[id].owner == me && d'.leases[id].expiresAt >= since + RUN_LEASE_TTL
       case Canceled => !calm && SameLease(d, d', id)
       case Failed => SameLease(d, d', id)
       case _ => false
  }

  ghost predicate SameTaskFlags(d: T.Tables, d': T.Tables) {
    d'.tasks.Keys == d.tasks.Keys
    && forall t :: t in d.tasks ==>
                     d'.tasks[t].completed == d.tasks[t].completed && d'.tasks[t].prDraft == d.tasks[t].prDraft
  }

  predicate PassAt(d: T.Tables, d': T.Tables, id: RunId, me: InstanceId, since: int, calm: bool)
    requires id in d.runs && id in d'.runs
  {
    (d'.runs[id] == d.runs[id] && SameLease(d, d', id)) || Taken(d, d', id, me, since, calm)
  }

  /** A pass touches the queued runs it claimed and nothing else. */
  ghost predicate PassFrame(d: T.Tables, d': T.Tables, me: InstanceId, since: int, calm: bool) {
    && d'.runs.Keys == d.runs.Keys
    && d'.cancels == d.cancels && d'.execs == d.execs && d'.pauses == d.pauses && d'.nextSeq == d.nextSeq
    && SameTaskFlags(d, d')
    && forall id :: id in d.runs ==> PassAt(d, d', id, me, since, calm)
  }

  lemma PassFrameTransitive(d: T.Tables, mid: T.Tables, d': T.Tables, me: InstanceId, since: int, calm: bool)
    requires PassFrame(d, mid, me, since, calm) && PassFrame(mid, d', me, since, calm)
    ensures PassFrame(d, d', me, since, calm)
  {
    forall id | id in d.runs
      ensures PassAt(d, d', id, me, since, calm)
    {
      assert PassAt(d, mid, id, me, since, calm) && PassAt(mid, d', id, me, since, calm);
    }
  }

  ghost function QueuedIds(d: T.Tables): set<RunId> {
    set id | id in d.runs && d.runs[id].status == Queued
  }

  /** One claim handled: `id` is no longer queued and every other row is as before. */
  ghost predicate Handled(d: T.Tables, d': T.Tables, id: RunId) {
    && id in d.runs && d'.runs.Keys == d.runs.Keys
    && d'.runs[id].status != Queued && d'.runs[id].taskId == d.runs[id].taskId
    && (forall o :: o in d.runs && o != id ==> d'.runs[o] == d.runs[o])
    && SameTaskFlags(d, d') && d'.cancels == d.cancels
  }

  /** Handling a claim never makes another run eligible, not even when the claimed run ends at
      once and frees its task. */
  lemma HandledShrinks(d: T.Tables, d': T.Tables, id: RunId)
    requires Handled(d, d', id) && T.Eligible(d, id)
    ensures T.EligibleIds(d') <= T.EligibleIds(d) - {id}
    ensures QueuedIds(d') == QueuedIds(d) - {id}
  {
    assert forall x, t :: T.RunningFor(d, x, t) ==> T.RunningFor(d', x, t);
    forall o | o in T.EligibleIds(d') ensures o in T.EligibleIds(d) && o != id {
      assert o != id && d'.runs[o] == d.runs[o];
    }
  }

  lemma OneRowTaken(d: T.Tables, d': T.Tables, id: RunId, me: InstanceId, since: int, calm: bool)
    requires id in d.runs && id in d'.runs && d'.runs == d.runs[id := d'.runs[id]]
    requires d'.cancels == d.cancels && d'.execs == d.execs && d'.pauses == d.pauses && d'.nextSeq == d.nextSeq
    requires SameTaskFlags(d, d')
    requires forall o :: o != id ==> SameLease(d, d', o)
    requires Taken(d, d', id, me, since, calm)
    ensures Handled(d, d', id) && PassFrame(d, d', me, since, calm)
  {
  }

  lemma EndedClaimRow(d: T.Tables, preferred: TaskId, id: RunId, to: RunStatus, error: string,
                      reason: StatusReason, now: int)
    requires T.WellKeyed(d) && T.NextRun(d, preferred) == Some(id) && id in d.runs && (to == Canceled || to == Failed)
    ensures var d' := T.Transition(T.ClaimNext(d, preferred, now), id, to, error, reason, now);
            && id in d'.runs && d'.runs == d.runs[id := d'.runs[id]]
            && d'.runs[id].status == to && SameButForStatus(d.runs[id], d'.runs[id])
            && d' == d.(runs := d'.runs, tasks := d'.tasks) && SameTaskFlags(d, d')
  {
  }

  /** A claimed run that ends before it is leased. */
  lemma EndedClaim(d: T.Tables, preferred: TaskId, id: RunId, to: RunStatus, error: string, reason: StatusReason,
                   now: int, me: InstanceId, since: int, calm: bool)
    requires T.WellKeyed(d) && T.NextRun(d, preferred) == Some(id) && T.Eligible(d, id)
    requires to == Failed || (to == Canceled && !calm)
    ensures var d' := T.Transition(T.ClaimNext(d, preferred, now), id, to, error, reason, now);
            Handled(d, d', id) && PassFrame(d, d', me, since, calm) && d'.leases == d.leases
  {
    var d' := T.Transition(T.ClaimNext(d, preferred, now), id, to, error, reason, now);
    EndedClaimRow(d, preferred, id, to, error, reason, now);
    OneRowTaken(d, d', id, me, since, calm);
  }

  /** A claimed run that gets its lease. */
  lemma LeasedClaim(d: T.Tables, preferred: TaskId, id: RunId, now: int, me: InstanceId, since: int, leaseAt: int,
                    calm: bool)
    requires T.WellKeyed(d) && T.NextRun(d, preferred) == Some(id) && T.Eligible(d, id) && since <= leaseAt
    ensures var d1 := T.ClaimNext(d, preferred, now);
            var d' := T.UpsertLease(d1, id, me, leaseAt, RUN_LEASE_TTL);
            && Handled(d, d', id) && PassFrame(d, d', me, since, calm)
            && |LeasesOf(d'.leases, me)| <= |LeasesOf(d.leases, me)| + 1
  {
    var d1 := T.ClaimNext(d, preferred, now);
    var d' := T.UpsertLease(d1, id, me, leaseAt, RUN_LEASE_TTL);
    OneMoreLease(d.leases, id, RunLease(me, leaseAt, leaseAt + RUN_LEASE_TTL));
    OneRowTaken(d, d', id, me, since, calm);
  }

  /** A request that arrives, is acted on and is cleared leaves no trace but the transition. */
  lemma RequestActedOn(d: T.Tables, id: RunId, req: CancelRequest, now: int)
    requires id !in d.cancels
    ensures T.ClearCancel(T.Transition(T.RequestCancel(d, id, req), id, Canceled, req.reason, req.source, now), id)
            == T.Transition(d, id, Canceled, req.reason, req.source, now)
  {
    assert d.cancels[id := req] - {id} == d.cancels;
  }

  /** What handling one claimed run may amount to. */
  ghost predicate ClaimHandled(d: T.Tables, d': T.Tables, id: RunId, me: InstanceId, since: int, calm: bool) {
    && T.Inv(d')
    && Handled(d, d', id)
    && PassFrame(d, d', me, since, calm)
    && |LeasesOf(d'.leases, me)| <= |LeasesOf(d.leases, me)| + 1
  }

  ghost predicate InOrder(claims: seq<Run>, from: nat) {
    forall i, j :: from <= i < j < |claims| ==> T.Before(claims[i], claims[j])
  }

  ghost predicate AllBeforeEligible(claims: seq<Run>, from: nat, d: T.Tables) {
    forall i, id :: from <= i < |claims| && id in T.EligibleIds(d) ==> T.Before(claims[i], d.runs[id])
  }

  /** Where the log of a pass starts to be sorted: after the preferred task's run, if it has one. */
  ghost function FirstOrdered(d: T.Tables, preferred: TaskId): nat {
    if preferred != "" && T.EligibleIdsOf(d, preferred) != {} then 1 else 0
  }

  /** Claiming the first of the pool next keeps the log sorted. */
  lemma ClaimExtendsOrder(d: T.Tables, d': T.Tables, claims: seq<Run>, from: nat, preferred: TaskId, id: RunId)
    requires T.WellKeyed(d) && T.NextRun(d, preferred) == Some(id) && T.Eligible(d, id) && Handled(d, d', id)
    requires InOrder(claims, from) && AllBeforeEligible(claims, from, d)
    requires if claims == [] then from == FirstOrdered(d, preferred) else from <= 1 && preferred == ""
    ensures InOrder(claims + [d.runs[id]], from) && AllBeforeEligible(claims + [d.runs[id]], from, d')
    ensures claims == [] && from == 1 ==> d.runs[id].taskId == preferred
    ensures QueuedIds(d') == QueuedIds(d) - {id}
  {
    HandledShrinks(d, d', id);
    assert id in T.EligibleIds(d);
    assert id in T.ClaimPool(d, preferred);
  }

  /** The log is sorted by creation, apart from the preferred task's run if there was one, and
      whatever is still eligible comes after it. */
  ghost predicate FirstComeFirstServed(start: T.Tables, d: T.Tables, claims: seq<Run>, preferred: TaskId) {
    var from := FirstOrdered(start, preferred);
    && InOrder(claims, from)
    && AllBeforeEligible(claims, from, d)
    && (claims != [] && from == 1 ==> claims[0].taskId == preferred)
  }

  /** What a pass has done so far: `claims` are the rows it claimed, as they were when it
      selected them, and `limit` bounds the leases it may reach. */
  ghost predicate PassSoFar(start: T.Tables, d: T.Tables, claims: seq<Run>, preferred: TaskId, me: InstanceId,
                            limit: int, since: int, calm: bool)
  {
    && PassFrame(start, d, me, since, calm)
    && FirstComeFirstServed(start, d, claims, preferred)
    && QueuedIds(d) == QueuedIds(start) - ClaimedIds(claims)
    // never above the limit, unless it started there
    && (|LeasesOf(d.leases, me)| <= |LeasesOf(start.leases, me)| || |LeasesOf(d.leases, me)| <= limit)
  }

  ghost function ClaimedIds(claims: seq<Run>): set<RunId> {
    set r | r in claims :: r.id
  }

  lemma OneMoreClaimed(claims: seq<Run>, r: Run)
    ensures ClaimedIds(claims + [r]) == ClaimedIds(claims) + {r.id}
  {
    assert forall c :: c in claims + [r] <==> c in claims || c == r;
  }

  lemma PassStarts(start: T.Tables, preferred: TaskId, me: InstanceId, limit: int, since: int, calm: bool)
    ensures PassSoFar(start, start, [], preferred, me, limit, since, calm)
  {
  }

  lemma OrderContinues(start: T.Tables, d: T.Tables, d': T.Tables, claims: seq<Run>, preferred: TaskId,
                       pref: TaskId, id: RunId)
    requires FirstComeFirstServed(start, d, claims, preferred)
    requires T.WellKeyed(d) && T.NextRun(d, pref) == Some(id) && T.Eligible(d, id) && Handled(d, d', id)
    requires if claims == [] then d == start && pref == preferred else pref == ""
    ensures FirstComeFirstServed(start, d', claims + [d.runs[id]], preferred)
    ensures QueuedIds(d') == QueuedIds(d) - {id} && id in QueuedIds(d) && d.runs[id].id == id
  {
    ClaimExtendsOrder(d, d', claims, FirstOrdered(start, preferred), pref, id);
  }

  lemma PassContinues(start: T.Tables, d: T.Tables, d': T.Tables, claims: seq<Run>, preferred: TaskId,
                      pref: TaskId, id: RunId, me: InstanceId, limit: int, since: int, calm: bool)
    requires PassSoFar(start, d, claims, preferred, me, limit, since, calm) && |LeasesOf(d.leases, me)| < limit
    requires T.WellKeyed(d) && T.NextRun(d, pref) == Some(id) && T.Eligible(d, id)
    requires ClaimHandled(d, d', id, me, since, calm)
    requires if claims == [] then d == start && pref == preferred else pref == ""
    ensures PassSoFar(start, d', claims + [d.runs[id]], preferred, me, limit, since, calm)
    ensures QueuedIds(d') < QueuedIds(d)
  {
    OrderContinues(start, d, d', claims, preferred, pref, id);
    PassFrameTransitive(start, d, d', me, since, calm);
    OneMoreClaimed(claims, d.runs[id]);
    OneLess(QueuedIds(start), QueuedIds(d), ClaimedIds(claims), id);
  }

  lemma OneLess(all: set<RunId>, left: set<RunId>, taken: set<RunId>, id: RunId)
    requires left == all - taken && id in left
    ensures left - {id} == all - (taken + {id}) && left - {id} < left
  {
  }

  ghost predicate ClaimsResulted(d: T.Tables, claims: seq<Run>, env: nat -> Turn) {
    forall k :: 0 <= k < |claims| ==> claims[k].id in d.runs && d.runs[claims[k].id].status == ResultOf(env(k))
  }

  lemma ResultsExtend(d: T.Tables, d': T.Tables, claims: seq<Run>, env: nat -> Turn, id: RunId)
    requires T.WellKeyed(d) && ClaimsResulted(d, claims, env) && Handled(d, d', id) && T.Eligible(d, id)
    requires d'.runs[id].status == ResultOf(env(|claims|))
    ensures ClaimsResulted(d', claims + [d.runs[id]], env)
  {
    forall k | 0 <= k < |claims|
      ensures d'.runs[claims[k].id].status == ResultOf(env(k))
    {
      assert d.runs[claims[k].id].status != Queued;
    }
  }

  // ---------- a pass as a sequence of turns ----------

  /** Only the first turn has a preference. */
  function PreferredAt(preferred: TaskId, i: nat): TaskId {
    if i == 0 then preferred else ""
  }

  /** A turn that claims run `id` of `d`, with room for it and no pause, and leaves `d'`. */
  ghost predicate TurnTaken(d: T.Tables, d': T.Tables, preferred: TaskId, turn: Turn, me: InstanceId, limit: int,
                            id: RunId) {
    && T.WellKeyed(d) && T.NextRun(d, preferred) == Some(id) && T.Eligible(d, id)
    && (turn.lookFails || !T.Paused(d, WORKERS, turn.now)) && |LeasesOf(d.leases, me)| < limit
    && d' == AfterTurn(T.ClaimNext(d, preferred, turn.now), id, turn, me)
  }

  /** A turn that claimed nothing changed nothing; else its claim was taken and handled. */
  ghost predicate TurnDone(d: T.Tables, d': T.Tables, preferred: TaskId, turn: Turn, claim: Option<RunId>,
                           me: InstanceId, limit: int, since: int, calm: bool)
  {
    if claim.None? then d' == d
    else && TurnTaken(d, d', preferred, turn, me, limit, claim.value)
         && ClaimHandled(d, d', claim.value, me, since, calm) && d'.runs[claim.value].status == ResultOf(turn)
  }

  /** The tables after n claiming turns. */
  ghost function PassAfter(start: T.Tables, preferred: TaskId, me: InstanceId, env: nat -> Turn, n: nat): T.Tables {
    if n == 0 then start
    else
      var d, pref := PassAfter(start, preferred, me, env, n - 1), PreferredAt(preferred, n - 1);
      if T.WellKeyed(d) && T.NextRun(d, pref).Some?
      then AfterTurn(T.ClaimNext(d, pref, env(n - 1).now), T.NextRun(d, pref).value, env(n - 1), me)
      else d
  }

  ghost predicate TurnAt(start: T.Tables, preferred: TaskId, me: InstanceId, limit: int, env: nat -> Turn, i: nat,
                         claim: Run) {
    var d := PassAfter(start, preferred, me, env, i);
    && TurnTaken(d, PassAfter(start, preferred, me, env, i + 1), PreferredAt(preferred, i), env(i), me, limit, claim.id)
    && claim == d.runs[claim.id]
  }

  /** The pass is exactly these turns, and its claims are theirs. */
  ghost predicate PassTurns(start: T.Tables, d: T.Tables, claims: seq<Run>, preferred: TaskId, me: InstanceId,
                            limit: int, env: nat -> Turn)
  {
    && d == PassAfter(start, preferred, me, env, |claims|)
    && forall i: nat :: i < |claims| ==> TurnAt(start, preferred, me, limit, env, i, claims[i])
  }

  lemma TurnsContinue(start: T.Tables, d: T.Tables, d': T.Tables, claims: seq<Run>, preferred: TaskId, id: RunId,
                      me: InstanceId, limit: int, env: nat -> Turn)
    requires PassTurns(start, d, claims, preferred, me, limit, env)
    requires TurnTaken(d, d', PreferredAt(preferred, |claims|), env(|claims|), me, limit, id)
    ensures PassTurns(start, d', claims + [d.runs[id]], preferred, me, limit, env)
  {
    var n, more := |claims|, claims + [d.runs[id]];
    assert d' == PassAfter(start, preferred, me, env, n + 1);
    assert TurnAt(start, preferred, me, limit, env, n, more[n]);
    forall i: nat | i < |more|
      ensures TurnAt(start, preferred, me, limit, env, i, more[i])
    {
      if i < n {
        assert more[i] == claims[i];
      }
    }
  }

  /** The pass so far: its turns, its frame and order, and what became of the claims. */
  ghost predicate PassLog(start: T.Tables, d: T.Tables, claims: seq<Run>, preferred: TaskId, me: InstanceId, limit: int,
                          since: int, calm: bool, env: nat -> Turn)
  {
    && PassSoFar(start, d, claims, preferred, me, limit, since, calm)
    && ClaimsResulted(d, claims, env)
    && PassTurns(start, d, claims, preferred, me, limit, env)
  }

  lemma PassLogContinues(start: T.Tables, d: T.Tables, d': T.Tables, claims: seq<Run>, preferred: TaskId, id: RunId,
                         me: InstanceId, limit: int, since: int, calm: bool, env: nat -> Turn)
    requires PassLog(start, d, claims, preferred, me, limit, since, calm, env)
    requires TurnTaken(d, d', PreferredAt(preferred, |claims|), env(|claims|), me, limit, id)
    requires ClaimHandled(d, d', id, me, since, calm) && d'.runs[id].status == ResultOf(env(|claims|))
    ensures PassLog(start, d', claims + [d.runs[id]], preferred, me, limit, since, calm, env)
    ensures QueuedIds(d') < QueuedIds(d)
  {
    PassContinues(start, d, d', claims, preferred, PreferredAt(preferred, |claims|), id, me, limit, since, calm);
    ResultsExtend(d, d', claims, env, id);
    TurnsContinue(start, d, d', claims, preferred, id, me, limit, env);
  }

  /** The log after a turn that claimed a run or, claiming none, changed nothing. */
  lemma NextLog(start: T.Tables, d: T.Tables, d': T.Tables, before: seq<Run>, preferred: TaskId, claim: Option<RunId>,
                me: InstanceId, limit: int, since: int, calm: bool, env: nat -> Turn)
    returns (claims: seq<Run>)
    requires PassLog(start, d, before, preferred, me, limit, since, calm, env)
    requires TurnDone(d, d', PreferredAt(preferred, |before|), env(|before|), claim, me, limit, since, calm)
    ensures PassLog(start, d', claims, preferred, me, limit, since, calm, env)
    ensures if claim.None? then claims == before else |claims| == |before| + 1 && QueuedIds(d') < QueuedIds(d)
  {
    claims := before;
    if claim.Some? {
      PassLogContinues(start, d, d', before, preferred, claim.value, me, limit, since, calm, env);
      claims := before + [d.runs[claim.value]];
    }
  }

  /** A pass that claims anything found room when it started; otherwise it changed nothing. */
  lemma ClaimsNeedRoom(start: T.Tables, d: T.Tables, claims: seq<Run>, preferred: TaskId, me: InstanceId, limit: int,
                       env: nat -> Turn)
    requires PassTurns(start, d, claims, preferred, me, limit, env)
    ensures if claims == [] then d == start else |LeasesOf(start.leases, me)| < limit
  {
    assert claims != [] ==> TurnAt(start, preferred, me, limit, env, 0, claims[0]);
  }

  lemma OneMoreLease(leases: map<RunId, RunLease>, id: RunId, lease: RunLease)
    ensures |LeasesOf(leases[id := lease], lease.owner)| <= |LeasesOf(leases, lease.owner)| + 1
  {
    T.SubsetSize(LeasesOf(leases[id := lease], lease.owner), LeasesOf(leases, lease.owner) + {id});
  }
}
