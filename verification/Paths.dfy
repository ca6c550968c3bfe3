/** What an uninterrupted call does, as single statements of the interleaved system. */
module Paths {
  import opened RunTypes
  import opened RunTables
  import opened Lifecycle

  ghost predicate Path(s: State, steps: seq<Step>, s': State) {
    if steps == [] then s == s'
    else
      var n := |steps| - 1;
      exists mid :: Path(s, steps[..n], mid) && Enabled(mid, steps[n]) && s' == Apply(mid, steps[n])
  }

  lemma PathExtends(s: State, steps: seq<Step>, mid: State, step: Step) returns (more: seq<Step>, s': State)
    requires Path(s, steps, mid) && Enabled(mid, step)
    ensures more == steps + [step] && s' == Apply(mid, step) && Path(s, more, s')
  {
    more, s' := steps + [step], Apply(mid, step);
    var n := |steps|;
    assert more[..n] == steps && more[n] == step;
    assert Path(s, more[..n], mid) && Enabled(mid, more[n]);
  }

  /** Paths keep what the theorems over whole runs rest on. */
  lemma {:induction false} PathKeepsGood(s: State, steps: seq<Step>, s': State)
    requires Good(s) && Path(s, steps, s')
    ensures Good(s')
  {
    if steps != [] {
      var n := |steps| - 1;
      var mid := LastStep(s, steps, s');
      PathKeepsGood(s, steps[..n], mid);
      StepKeepsGood(mid, steps[n]);
    }
  }

  lemma LastStep(s: State, steps: seq<Step>, s': State) returns (before: State)
    requires Path(s, steps, s') && steps != []
    ensures var n := |steps| - 1;
            Path(s, steps[..n], before) && Enabled(before, steps[n]) && s' == Apply(before, steps[n])
  {
    var n := |steps| - 1;
    before :| Path(s, steps[..n], before) && Enabled(before, steps[n]) && s' == Apply(before, steps[n]);
  }

  lemma {:induction false} PathsJoin(s: State, a: seq<Step>, mid: State, b: seq<Step>, s': State)
    requires Path(s, a, mid) && Path(mid, b, s')
    ensures Path(s, a + b, s')
  {
    if b == [] {
      assert a + b == a;
    } else {
      var rest := b[..|b| - 1];
      var before := LastStep(mid, b, s');
      PathsJoin(s, a, mid, rest, before);
      JoinStep(s, a, rest, before, b[|b| - 1]);
      FirstsAndLast(b);
    }
  }

  lemma FirstsAndLast<T>(b: seq<T>)
    requires b != []
    ensures b == b[..|b| - 1] + [b[|b| - 1]]
  {
  }

  lemma JoinStep(s: State, a: seq<Step>, rest: seq<Step>, before: State, step: Step)
    requires Path(s, a + rest, before) && Enabled(before, step)
    ensures Path(s, a + (rest + [step]), Apply(before, step))
  {
    var more, _ := PathExtends(s, a + rest, before, step);
    assert a + (rest + [step]) == more;
  }

  // ---------- calls ----------

  /** Every other goroutine stands where it stood, and no run was added. */
  ghost predicate OthersStand(s: State, s': State, t: ThreadId) {
    s'.issued == s.issued && forall u :: u != t ==> PcOf(s', u) == PcOf(s, u)
  }

  /** A statement of goroutine t, or one that can be anybody's, other than adding a run. */
  predicate By(t: ThreadId, step: Step) {
    match step
    case AddRunStep(_, _, _, _, _, _, _) => false
    case SchedCheck(u, _, _) => u == t
    case SchedClaim(u, _, _) => u == t
    case SchedLook(u) => u == t
    case SweepLook(u, _) => u == t
    case DoCancel(u, _) => u == t
    case DoClear(u) => u == t
    case ApiRead(u, _) => u == t
    case ApiRequest(u) => u == t
    case ApiTransition(u, _) => u == t
    case FinishRead(u, _) => u == t
    case FinishClear(u) => u == t
    case Crash(u) => u == t
    case _ => true
  }

  lemma OwnStep(s: State, t: ThreadId, step: Step)
    requires Enabled(s, step) && By(t, step)
    ensures OthersStand(s, Apply(s, step), t)
  {
  }

  lemma CallExtends(s: State, t: ThreadId, steps: seq<Step>, mid: State, step: Step)
    returns (more: seq<Step>, s': State)
    requires Path(s, steps, mid) && OthersStand(s, mid, t) && Enabled(mid, step) && By(t, step)
    ensures s' == Apply(mid, step) && Path(s, more, s') && OthersStand(s, s', t)
  {
    more, s' := PathExtends(s, steps, mid, step);
    OwnStep(mid, t, step);
  }

  /** Every goroutine stands where it stood. */
  ghost predicate SameThreads(s: State, s': State) {
    forall u :: PcOf(s', u) == PcOf(s, u)
  }

  /** A sequence of statements leads from `s` to the tables `d'`, with new runs only from `ids`. */
  ghost predicate Arrives(s: State, d': Tables, ids: set<RunId>) {
    exists steps, s' :: Path(s, steps, s') && s'.db == d' && SameThreads(s, s') && s'.issued <= s.issued + ids
  }

  /** Whatever the state of the system with the tables `d`, an idle goroutine gets to `d'` by
      single statements of its own. */
  ghost predicate Reaches(d: Tables, d': Tables, ids: set<RunId>) {
    forall s, t :: Good(s) && s.db == d && PcOf(s, t).Idle? && ids !! s.issued ==> Arrives(s, d', ids)
  }

  /** The same for calls that add no run. */
  ghost predicate InSteps(d: Tables, d': Tables) {
    Reaches(d, d', {})
  }

  lemma InNoSteps(d: Tables)
    ensures InSteps(d, d)
  {
    forall s, t | Good(s) && s.db == d && PcOf(s, t).Idle?
      ensures Arrives(s, d, {})
    {
      assert Path(s, [], s);
    }
  }

  lemma ArrivesThenReaches(s: State, t: ThreadId, mid: Tables, d': Tables, a: set<RunId>, b: set<RunId>)
    requires Good(s) && PcOf(s, t).Idle? && a !! b && b !! s.issued
    requires Arrives(s, mid, a) && Reaches(mid, d', b)
    ensures Arrives(s, d', a + b)
  {
    var first, m :| Path(s, first, m) && m.db == mid && SameThreads(s, m) && m.issued <= s.issued + a;
    PathKeepsGood(s, first, m);
    assert PcOf(m, t).Idle? && Arrives(m, d', b);
    var second, s' :| Path(m, second, s') && s'.db == d' && SameThreads(m, s') && s'.issued <= m.issued + b;
    PathsJoin(s, first, m, second, s');
  }

  lemma ReachesTransitive(d: Tables, mid: Tables, d': Tables, a: set<RunId>, b: set<RunId>)
    requires Reaches(d, mid, a) && Reaches(mid, d', b) && a !! b
    ensures Reaches(d, d', a + b)
  {
    forall s, t | Good(s) && s.db == d && PcOf(s, t).Idle? && a + b !! s.issued
      ensures Arrives(s, d', a + b)
    {
      assert a !! s.issued;
      ArrivesThenReaches(s, t, mid, d', a, b);
    }
  }

  lemma InMoreSteps(d: Tables, mid: Tables, d': Tables)
    requires InSteps(d, mid) && InSteps(mid, d')
    ensures InSteps(d, d')
  {
    var none: set<RunId> := {};
    ReachesTransitive(d, mid, d', none, none);
    assert none + none == none;
  }

  lemma StepsThenReaches(d: Tables, mid: Tables, d': Tables, ids: set<RunId>)
    requires InSteps(d, mid) && Reaches(mid, d', ids)
    ensures Reaches(d, d', ids)
  {
    ReachesTransitive(d, mid, d', {}, ids);
    assert {} + ids == ids;
  }

  lemma ReachesThenSteps(d: Tables, mid: Tables, d': Tables, ids: set<RunId>)
    requires Reaches(d, mid, ids) && InSteps(mid, d')
    ensures Reaches(d, d', ids)
  {
    ReachesTransitive(d, mid, d', ids, {});
    assert ids + {} == ids;
  }

  lemma ReachesAnyway(d: Tables, d': Tables, ids: set<RunId>)
    requires InSteps(d, d')
    ensures Reaches(d, d', ids)
  {
    forall s, t | Good(s) && s.db == d && PcOf(s, t).Idle? && ids !! s.issued
      ensures Arrives(s, d', ids)
    {
      assert Arrives(s, d', {});
    }
  }

  // ---------- the statements ----------

  lemma ArrivesByOne(s: State, step: Step, ids: set<RunId>)
    requires Enabled(s, step) && Apply(s, step).threads == s.threads && Apply(s, step).issued <= s.issued + ids
    ensures Arrives(s, Apply(s, step).db, ids)
  {
    assert Path(s, [], s);
    var steps, s' := PathExtends(s, [], s, step);
  }

  lemma TransitionInSteps(d: Tables, id: RunId, to: RunStatus, patch: PRPatch, error: string, reason: StatusReason,
                          now: int)
    requires IsFinal(to)
    ensures InSteps(d, TransitionBatch(d, id, to, patch, error, reason, now))
  {
    forall s, t | Good(s) && s.db == d && PcOf(s, t).Idle?
      ensures Arrives(s, TransitionBatch(d, id, to, patch, error, reason, now), {})
    {
      ArrivesByOne(s, FinalStep(id, to, patch, error, reason, now), {});
    }
  }

  lemma StartInSteps(d: Tables, id: RunId, now: int)
    ensures InSteps(d, ClaimStart(d, id, now))
  {
    forall s, t | Good(s) && s.db == d && PcOf(s, t).Idle?
      ensures Arrives(s, ClaimStart(d, id, now), {})
    {
      ArrivesByOne(s, StartStep(id, now), {});
    }
  }

  lemma RequeueInSteps(d: Tables, id: RunId)
    ensures InSteps(d, Requeue(d, id))
  {
    forall s, t | Good(s) && s.db == d && PcOf(s, t).Idle?
      ensures Arrives(s, Requeue(d, id), {})
    {
      ArrivesByOne(s, RequeueStep(id), {});
    }
  }

  lemma PatchInSteps(d: Tables, id: RunId, patch: PRPatch)
    ensures InSteps(d, PatchRun(d, id, patch))
  {
    forall s, t | Good(s) && s.db == d && PcOf(s, t).Idle?
      ensures Arrives(s, PatchRun(d, id, patch), {})
    {
      ArrivesByOne(s, PatchStep(id, patch), {});
    }
  }

  lemma CancelQueuedInSteps(d: Tables, taskId: TaskId, error: string, reason: StatusReason, now: int)
    ensures InSteps(d, CancelQueued(d, taskId, error, reason, now))
  {
    forall s, t | Good(s) && s.db == d && PcOf(s, t).Idle?
      ensures Arrives(s, CancelQueued(d, taskId, error, reason, now), {})
    {
      ArrivesByOne(s, CancelQueuedStep(taskId, error, reason, now), {});
    }
  }

  lemma RequestInSteps(d: Tables, id: RunId, req: CancelRequest)
    requires id in d.runs
    ensures InSteps(d, RequestCancel(d, id, req))
  {
    forall s, t | Good(s) && s.db == d && PcOf(s, t).Idle?
      ensures Arrives(s, RequestCancel(d, id, req), {})
    {
      ArrivesByOne(s, RequestStep(id, req), {});
    }
  }

  lemma TaskInSteps(d: Tables, d': Tables, taskId: TaskId)
    requires taskId in d'.tasks && d' == d.(tasks := d.tasks[taskId := d'.tasks[taskId]])
    ensures InSteps(d, d')
  {
    forall s, t | Good(s) && s.db == d && PcOf(s, t).Idle?
      ensures Arrives(s, d', {})
    {
      ArrivesByOne(s, WriteTask(taskId, d'.tasks[taskId]), {});
    }
  }

  lemma LeasesInSteps(d: Tables, d': Tables)
    requires d' == d.(leases := d'.leases, execs := d'.execs)
    ensures InSteps(d, d')
  {
    forall s, t | Good(s) && s.db == d && PcOf(s, t).Idle?
      ensures Arrives(s, d', {})
    {
      ArrivesByOne(s, WriteLeases(d'.leases, d'.execs), {});
    }
  }

  lemma PauseInSteps(d: Tables, why: string, until: int)
    ensures InSteps(d, PauseScheduler(d, WORKERS, why, until))
  {
    forall s, t | Good(s) && s.db == d && PcOf(s, t).Idle?
      ensures Arrives(s, PauseScheduler(d, WORKERS, why, until), {})
    {
      ArrivesByOne(s, PauseStep(why, until), {});
    }
  }

  lemma AddInSteps(d: Tables, id: RunId, taskId: TaskId, prNumber: nat, prStatus: PRStatus, headSHA: string, now: int,
                   maxRuns: nat)
    ensures Reaches(d, AddRun(d, id, taskId, prNumber, prStatus, headSHA, now, maxRuns), {id})
  {
    forall s, t | Good(s) && s.db == d && PcOf(s, t).Idle? && {id} !! s.issued
      ensures Arrives(s, AddRun(d, id, taskId, prNumber, prStatus, headSHA, now, maxRuns), {id})
    {
      assert id in {id};
      ArrivesByOne(s, AddRunStep(id, taskId, prNumber, prStatus, headSHA, now, maxRuns), {id});
    }
  }

  /** The request of a run that is final is cleared on the evidence of its row. */
  lemma ClearInSteps(d: Tables, id: RunId)
    requires id !in d.cancels || (id in d.runs && IsFinal(d.runs[id].status))
    ensures InSteps(d, ClearCancel(d, id))
  {
    if id !in d.cancels {
      assert d.cancels - {id} == d.cancels;
      InNoSteps(d);
    } else {
      forall s, t | Good(s) && s.db == d && PcOf(s, t).Idle?
        ensures Arrives(s, ClearCancel(d, id), {})
      {
        ClearsAsFinished(s, t, id);
      }
    }
  }

  lemma ClearsAsFinished(s: State, t: ThreadId, id: RunId)
    requires PcOf(s, t).Idle? && id in s.db.runs && IsFinal(s.db.runs[id].status)
    ensures Arrives(s, ClearCancel(s.db, id), {})
  {
    var steps, s' := CallExtends(s, t, [], s, FinishRead(t, id));
    steps, s' := CallExtends(s, t, steps, s', FinishClear(t));
    steps, s' := CallExtends(s, t, steps, s', DoClear(t));
    assert SameThreads(s, s');
  }

  // ---------- what that is good for ----------

  lemma {:induction false} PathIsLater(s: State, steps: seq<Step>, s': State)
    requires Good(s) && Path(s, steps, s')
    ensures Later(s, s')
  {
    if steps != [] {
      var n := |steps| - 1;
      var mid := LastStep(s, steps, s');
      PathIsLater(s, steps[..n], mid);
      PathKeepsGood(s, steps[..n], mid);
      StepKeepsGood(mid, steps[n]);
      LaterThenMoves(s, mid, s');
    }
  }

  /** Whatever a call does, it keeps the rules of the interleaved system: rows move along the
      transition table, none appears but the added ones, no two runs of a task run, and a cancel
      request goes only when its run is final or gone. */
  lemma CallsFollowRules(d: Tables, d': Tables, ids: set<RunId>)
    requires Inv(d) && Reaches(d, d', ids) && ids !! d.runs.Keys
    ensures Inv(d')
    ensures forall id :: id in d.runs && id in d'.runs ==>
                           CanReach(d.runs[id].status, d'.runs[id].status) && d'.runs[id].taskId == d.runs[id].taskId
    ensures forall id :: id in d'.runs && id !in d.runs ==> id in ids
    ensures forall id :: id in d.runs && id in d.cancels && id !in d'.cancels && id in d'.runs ==>
              IsFinal(d'.runs[id].status)
  {
    var s := State(d, d.runs.Keys, map[]);
    assert PcOf(s, 0).Idle? && Good(s);
    assert Arrives(s, d', ids);
    var steps, s' :| Path(s, steps, s') && s'.db == d' && SameThreads(s, s') && s'.issued <= s.issued + ids;
    PathIsLater(s, steps, s');
    PathKeepsGood(s, steps, s');
  }
}
