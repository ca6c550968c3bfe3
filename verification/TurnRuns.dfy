/** The turns of a scheduling pass, as the methods run them, are runs of the interleaved system. */
module TurnRuns {
  import opened RunTypes
  import opened RunTables
  import opened Lifecycle
  import opened Paths
  import Scheduling

  /** Check, claim and look for a request that slipped in. */
  lemma ClaimIsPath(s: State, t: ThreadId, preferred: TaskId, turn: Scheduling.Turn, id: RunId)
    returns (steps: seq<Step>, s': State)
    requires Good(s) && PcOf(s, t).Idle? && (turn.lookFails || !Paused(s.db, WORKERS, turn.now))
    requires NextRun(s.db, preferred) == Some(id) && Eligible(s.db, id)
    ensures Path(s, steps, s') && PcOf(s', t) == (if turn.cancel.Some? then MustCancel(id) else Idle)
    ensures OthersStand(s, s', t)
    ensures var claimed := ClaimNext(s.db, preferred, turn.now);
            s'.db == if turn.cancel.Some? then RequestCancel(claimed, id, turn.cancel.value) else claimed
  {
    steps, s' := CallExtends(s, t, [], s, SchedCheck(t, turn.now, turn.lookFails));
    steps, s' := CallExtends(s, t, steps, s', SchedClaim(t, preferred, turn.now));
    assert id in s'.issued && id !in s'.db.cancels && PcOf(s', t) == SchedClaimed(id);
    if turn.cancel.Some? {
      steps, s' := CallExtends(s, t, steps, s', RequestStep(id, turn.cancel.value));
    }
    steps, s' := CallExtends(s, t, steps, s', SchedLook(t));
  }

  /** Act on the request that slipped in, and clear it. */
  lemma CancelIsPath(s: State, t: ThreadId, steps: seq<Step>, mid: State, id: RunId, now: int)
    returns (more: seq<Step>, s': State)
    requires Path(s, steps, mid) && OthersStand(s, mid, t) && PcOf(mid, t) == MustCancel(id) && id in mid.db.cancels
    ensures Path(s, more, s') && OthersStand(s, s', t) && PcOf(s', t).Idle?
    ensures var req := mid.db.cancels[id];
            s'.db == ClearCancel(Transition(mid.db, id, Canceled, req.reason, req.source, now), id)
  {
    more, s' := CallExtends(s, t, steps, mid, DoCancel(t, now));
    more, s' := CallExtends(s, t, more, s', DoClear(t));
  }

  /** Whatever a turn does with its claim, the tables it leaves are reached by single statements
      of the interleaved system, so that all that holds over its runs holds of passes. */
  lemma TurnIsPath(s: State, t: ThreadId, preferred: TaskId, turn: Scheduling.Turn, me: InstanceId, id: RunId)
    returns (steps: seq<Step>, s': State)
    requires Good(s) && PcOf(s, t).Idle? && (turn.lookFails || !Paused(s.db, WORKERS, turn.now))
    requires NextRun(s.db, preferred) == Some(id) && Eligible(s.db, id)
    ensures Path(s, steps, s') && PcOf(s', t).Idle? && OthersStand(s, s', t)
    ensures s'.db == Scheduling.AfterTurn(ClaimNext(s.db, preferred, turn.now), id, turn, me)
  {
    steps, s' := ClaimIsPath(s, t, preferred, turn, id);
    if turn.cancel.Some? {
      steps, s' := CancelIsPath(s, t, steps, s', id, turn.now);
    } else if turn.drains {
      steps, s' := CallExtends(s, t, steps, s',
                               FinalStep(id, Canceled, NO_PATCH, "orchestrator shutting down", Shutdown, turn.now));
    } else if turn.leaseFails {
      steps, s' := CallExtends(s, t, steps, s', FinalStep(id, Failed, NO_PATCH, "claim run lease", NoReason, turn.now));
    } else {
      var leased := UpsertLease(s'.db, id, me, turn.leaseAt, RUN_LEASE_TTL);
      steps, s' := CallExtends(s, t, steps, s', WriteLeases(leased.leases, leased.execs));
    }
  }

  /** A whole pass, as its method's contract describes it, is one run of single statements: from
      any state of the interleaved system to one with the tables that the pass leaves. */
  lemma {:induction false} PassIsPath(s: State, t: ThreadId, d: Tables, claims: seq<Run>, preferred: TaskId,
                                      me: InstanceId, limit: int, env: nat -> Scheduling.Turn)
    returns (steps: seq<Step>, s': State)
    requires Good(s) && PcOf(s, t).Idle?
    requires Scheduling.PassTurns(s.db, d, claims, preferred, me, limit, env)
    ensures Path(s, steps, s') && PcOf(s', t).Idle? && OthersStand(s, s', t) && s'.db == d && Good(s')
    decreases |claims|
  {
    if claims == [] {
      steps, s' := [], s;
    } else {
      var n := |claims| - 1;
      var before := Scheduling.PassAfter(s.db, preferred, me, env, n);
      FirstTurns(s.db, d, claims, preferred, me, limit, env);
      var mid;
      steps, mid := PassIsPath(s, t, before, claims[..n], preferred, me, limit, env);
      assert Scheduling.TurnAt(s.db, preferred, me, limit, env, n, claims[n]);
      var last;
      last, s' := TurnIsPath(mid, t, Scheduling.PreferredAt(preferred, n), env(n), me, claims[n].id);
      PathsJoin(s, steps, mid, last, s');
      PathKeepsGood(mid, last, s');
      steps := steps + last;
    }
  }

  lemma FirstTurns(start: Tables, d: Tables, claims: seq<Run>, preferred: TaskId, me: InstanceId, limit: int,
                   env: nat -> Scheduling.Turn)
    requires Scheduling.PassTurns(start, d, claims, preferred, me, limit, env) && claims != []
    ensures var n := |claims| - 1;
            Scheduling.PassTurns(start, Scheduling.PassAfter(start, preferred, me, env, n), claims[..n], preferred,
                                 me, limit, env)
  {
    var n := |claims| - 1;
    forall i: nat | i < n
      ensures Scheduling.TurnAt(start, preferred, me, limit, env, i, claims[..n][i])
    {
      assert Scheduling.TurnAt(start, preferred, me, limit, env, i, claims[i]);
    }
  }

  lemma PassInSteps(d: Tables, d': Tables, claims: seq<Run>, preferred: TaskId, me: InstanceId, limit: int,
                    env: nat -> Scheduling.Turn)
    requires Scheduling.PassTurns(d, d', claims, preferred, me, limit, env)
    ensures InSteps(d, d')
  {
    forall s, t | Good(s) && s.db == d && PcOf(s, t).Idle?
      ensures Arrives(s, d', {})
    {
      var steps, s' := PassIsPath(s, t, d', claims, preferred, me, limit, env);
      assert SameThreads(s, s');
    }
  }
}
