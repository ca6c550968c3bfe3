/** The credential broker: acquiring a lease or nothing, renewing, releasing. Between any two of
    its statements other brokers, sweepers and administrators may run statements of their own. */
module Brokers {
  import opened RunTypes
  import opened CredentialTables
  import opened Strategies

  const ATTEMPTS: nat := 12
  const USAGE_WINDOW: int := 3_600_000_000_000
  const CRYPTO_COOLDOWN: int := 300_000_000_000

  function Do(s: State, step: Step): State {
    if Enabled(s, step) then Apply(s, step) else s
  }

  function DoAll(s: State, steps: seq<Step>): State {
    if steps == [] then s else Do(DoAll(s, steps[..|steps| - 1]), steps[|steps| - 1])
  }

  lemma {:induction false} DoAllSplits(s: State, a: seq<Step>, b: seq<Step>)
    ensures DoAll(s, a + b) == DoAll(DoAll(s, a), b)
  {
    if b == [] {
      assert a + b == a;
    } else {
      DoAllSplits(s, a, b[..|b| - 1]);
      assert (a + b)[..|a + b| - 1] == a + b[..|b| - 1];
    }
  }

  lemma PrefixAndRest<X>(a: seq<X>, b: seq<X>)
    requires a <= b
    ensures b == a + b[|a|..]
  {
  }

  lemma OneMore(s: State, steps: seq<Step>, step: Step)
    ensures DoAll(s, steps + [step]) == Do(DoAll(s, steps), step)
  {
    assert (steps + [step])[..|steps|] == steps;
  }

  /** Whatever mix of calls and other statements ran, the usage account holds. */
  lemma {:induction false} CallsConserveUsage(s: State, steps: seq<Step>)
    requires Conserved(s)
    ensures Conserved(DoAll(s, steps))
  {
    if steps != [] {
      CallsConserveUsage(s, steps[..|steps| - 1]);
      var before, step := DoAll(s, steps[..|steps| - 1]), steps[|steps| - 1];
      if Enabled(before, step) {
        StepKeepsConserved(before, step);
      }
    }
  }

  /** None of the steps creates a lease under one of the ids. */
  ghost predicate Spares(steps: seq<Step>, ids: set<LeaseId>) {
    forall i :: 0 <= i < |steps| && steps[i].CreateStep? ==> steps[i].id !in ids
  }

  lemma {:induction false} SparedIdsStayFree(s: State, steps: seq<Step>, ids: set<LeaseId>)
    requires Spares(steps, ids) && ids !! s.leases.Keys
    ensures ids !! DoAll(s, steps).leases.Keys
  {
    if steps != [] {
      SparedIdsStayFree(s, steps[..|steps| - 1], ids);
    }
  }

  lemma {:induction false} ReleasedStays(s: State, steps: seq<Step>, l: LeaseId)
    requires l in s.leases && s.leases[l].releasedAt.Some?
    ensures l in DoAll(s, steps).leases && DoAll(s, steps).leases[l].releasedAt.Some?
  {
    if steps != [] {
      ReleasedStays(s, steps[..|steps| - 1], l);
      var before, step := DoAll(s, steps[..|steps| - 1]), steps[|steps| - 1];
      if Enabled(before, step) {
        LeasesOnlyAge(before, step, l);
      }
    }
  }

  lemma {:induction false} LeasesAreKept(s: State, steps: seq<Step>)
    ensures s.leases.Keys <= DoAll(s, steps).leases.Keys && s.clock <= DoAll(s, steps).clock
  {
    if steps != [] {
      LeasesAreKept(s, steps[..|steps| - 1]);
    }
  }

  /** The credential is on offer: of the provider asked for (a nameless one is codex), active, not
      cooling down, and shared or the requester's own. */
  predicate Offered(c: Credential, user: UserId, provider: string, now: int) {
    && (c.provider == provider || (provider == "codex" && c.provider == ""))
    && c.status == Active
    && (c.cooldownUntil.None? || c.cooldownUntil.value <= now)
    && (c.scope == Shared || c.owner == user)
  }

  predicate Listed(credentials: Credentials, id: CredentialId, user: UserId, provider: string, now: int) {
    id in credentials && Offered(credentials[id], user, provider, now)
  }

  function ActiveLeases(leases: Leases, id: CredentialId, now: int): int {
    |set l | l in leases && leases[l].credentialId == id && Live(leases[l], now)|
  }

  /** A credential as a strategy sees it. No statement ever counts tokens. */
  ghost function CandidateOf(s: State, id: CredentialId, now: int, windowStart: int): Candidate
    requires id in s.credentials
  {
    var c := s.credentials[id];
    Candidate(id, c.owner, c.scope, c.weight, ActiveLeases(s.leases, id, now), 0,
              RunsSince(WindowsOf(s.usage, id), windowStart))
  }

  /** The credential tables. `released` and `uncounted` keep the account of the brokers'
      releases that the conservation law is about; no statement reads them. */
  class CredentialStore {
    var leases: Leases
    var credentials: Credentials
    var usage: Usage
    var clock: int
    var released: set<LeaseId>
    var uncounted: set<LeaseId>

    constructor ()
      ensures Now() == INIT
    {
      leases, credentials, usage, clock, released, uncounted := map[], map[], map[], 0, {}, {};
    }

    function Now(): State
      reads this
    {
      State(leases, credentials, usage, clock, released, uncounted)
    }

    /** Whatever the other processes do in the meantime. */
    method OthersRun(script: seq<Step>)
      modifies this
      ensures Now() == DoAll(old(Now()), script)
    {
      var s := DoAll(Now(), script);
      leases, credentials, usage, clock := s.leases, s.credentials, s.usage, s.clock;
      released, uncounted := s.released, s.uncounted;
    }

    /** The counters of the usage windows, added up. */
    method RunsInWindows(id: CredentialId, windowStart: int) returns (runs: int)
      ensures runs == RunsSince(WindowsOf(usage, id), windowStart)
    {
      var w := if id in usage then usage[id] else map[];
      var rest := set k | k in w && windowStart <= k;
      runs := 0;
      while rest != {}
        invariant rest <= w.Keys && runs + SumOver(w, rest) == RunsSince(w, windowStart)
      {
        var k :| k in rest;
        SumSplits(w, rest, k);
        runs, rest := runs + w[k], rest - {k};
      }
    }

    method ListCredentialCandidates(user: UserId, provider: string, now: int,
                                    windowStart: int) returns (out: seq<Candidate>)
      ensures forall c :: c in out <==>
                          Listed(credentials, c.id, user, provider, now)
                              && c == CandidateOf(Now(), c.id, now, windowStart)
    {
      out := [];
      var rest := credentials.Keys;
      while rest != {}
        invariant rest <= credentials.Keys
        invariant forall c :: c in out <==>
                              c.id !in rest && Listed(credentials, c.id, user, provider, now)
                              && c == CandidateOf(Now(), c.id, now, windowStart)
      {
        var id :| id in rest;
        var c := credentials[id];
        if c.status == Active && !(c.cooldownUntil.Some? && c.cooldownUntil.value > now)
           && (c.scope == Shared || c.owner == user)
           && (c.provider == provider || (provider == "codex" && c.provider == ""))
        {
          var runs := RunsInWindows(id, windowStart);
          var live := set l | l in leases && leases[l].credentialId == id && leases[l].releasedAt.None?
                              && leases[l].expiresAt > now;
          assert live == set l | l in leases && leases[l].credentialId == id && Live(leases[l], now);
          out := out + [Candidate(id, c.owner, c.scope, c.weight, |live|, 0, runs)];
        }
        rest := rest - {id};
      }
    }

    method ReclaimExpiredCredentialLeases(now: int)
      requires now <= clock
      modifies `leases
      ensures Now() == Do(old(Now()), ReclaimStep(now))
    {
      leases := map l | l in leases ::
        if leases[l].releasedAt.None? && leases[l].expiresAt <= now
        then leases[l].(releasedAt := Some(now)) else leases[l];
      assert leases == Reclaim(old(leases), now);
    }

    method TryCreateCredentialLease(id: LeaseId, credentialId: CredentialId, runId: RunId, user: UserId,
                                    acquiredAt: int, ttl: int)
      returns (ok: bool)
      requires id !in leases && acquiredAt <= clock && ttl > 0
      modifies `leases
      ensures Now() == Do(old(Now()), CreateStep(id, credentialId, runId, user, acquiredAt, ttl))
      ensures ok == CanCreate(old(leases), credentials, credentialId, runId, user, acquiredAt) == (id in leases)
    {
      ok := credentialId in credentials;
      if ok {
        var c := credentials[credentialId];
        ok := c.status == Active && !(c.cooldownUntil.Some? && c.cooldownUntil.value > acquiredAt)
              && (c.scope == Shared || c.owner == user);
      }
      if ok {
        var held := set l | l in leases && leases[l].runId == runId && leases[l].releasedAt.None?
                            && leases[l].expiresAt > acquiredAt;
        ok := held == {};
        assert forall l :: l in held <==> l in leases && leases[l].runId == runId && Live(leases[l], acquiredAt);
        assert held != {} ==> exists l :: l in held;
      }
      if ok {
        leases := leases[id := Lease(credentialId, runId, user, acquiredAt, acquiredAt + ttl, None)];
      }
    }

    method RenewCredentialLease(id: LeaseId, now: int, ttl: int) returns (ok: bool)
      requires now <= clock && ttl > 0
      modifies `leases
      ensures Now() == Do(old(Now()), RenewStep(id, now, ttl))
              && ok == (id in old(leases) && Live(old(leases)[id], now))
    {
      ok := id in leases && leases[id].releasedAt.None? && leases[id].expiresAt > now;
      if ok {
        leases := leases[id := leases[id].(expiresAt := now + ttl)];
      }
    }

    method ReleaseCredentialLease(id: LeaseId) returns (first: bool)
      modifies `leases
      ensures Now() == Do(old(Now()), RollbackRelease(id)) && first == Unreleased(old(leases), id)
    {
      first := id in leases && leases[id].releasedAt.None?;
      if first {
        leases := leases[id := leases[id].(releasedAt := Some(clock))];
      }
    }

    method SetCredentialStatus(id: CredentialId, status: CredentialStatus, cooldownUntil: Option<int>)
      modifies `credentials
      ensures Now() == if id in old(credentials)
                       then var row := old(credentials)[id].(status := status, cooldownUntil := cooldownUntil);
                            Do(old(Now()), WriteCredential(id, row))
                       else old(Now())
    {
      if id in credentials {
        credentials := credentials[id := credentials[id].(status := status, cooldownUntil := cooldownUntil)];
      }
    }

    method UpsertCredentialUsage(id: CredentialId, window: int, runs: int)
      modifies `usage
      ensures usage == AddUsage(old(usage), id, window, runs)
    {
      var w := if id in usage then usage[id] else map[];
      usage := usage[id := w[window := (if window in w then w[window] else 0) + runs]];
    }
  }

  datatype AcquireRequest = AcquireRequest(runId: RunId, user: UserId, provider: string)

  datatype AcquireError = MissingIds | NoCredentialAvailable | StoreFailed | DecryptFailed

  datatype Outcome = Granted(id: LeaseId, credentialId: CredentialId) | NotGranted(error: AcquireError) | Retry

  /** What befalls one attempt: the statements that others run at each point, and the failures. */
  datatype Turn = Turn(beforeList: seq<Step>, listFails: bool, beforeReading: seq<Step>, beforeCreate: seq<Step>,
                       createFails: bool, beforeGet: seq<Step>, getFails: bool, decryptFails: bool,
                       beforeBind: seq<Step>, bindFails: bool, beforeRelease: seq<Step>,
                       beforeCooldown: seq<Step>, cooldownFails: bool)

  ghost predicate TurnSpares(t: Turn, ids: set<LeaseId>) {
    && Spares(t.beforeList, ids) && Spares(t.beforeReading, ids) && Spares(t.beforeCreate, ids)
        && Spares(t.beforeGet, ids)
    && Spares(t.beforeBind, ids) && Spares(t.beforeRelease, ids) && Spares(t.beforeCooldown, ids)
  }

  /** The candidates that the listing finds in this state. */
  ghost predicate IsListing(s: State, req: AcquireRequest, now: int, cs: seq<Candidate>) {
    forall c :: c in cs <==> Listed(s.credentials, c.id, req.user, req.provider, now)
                             && c == CandidateOf(s, c.id, now, now - USAGE_WINDOW)
  }

  /** The strategy's choice among the credentials that are on offer in this state. */
  ghost predicate Picked(s: State, strategy: StrategyName, req: AcquireRequest, now: int, credentialId: CredentialId) {
    && credentialId in s.credentials && Offered(s.credentials[credentialId], req.user, req.provider, now)
    && exists cs :: IsListing(s, req, now, cs) && Chosen(strategy, req.user, cs, Some(credentialId))
  }

  /** Nothing on offer is in the strategy's pools. */
  ghost predicate NothingToPick(s: State, strategy: StrategyName, req: AcquireRequest, now: int) {
    forall id :: Listed(s.credentials, id, req.user, req.provider, now) ==>
                   && (strategy.SharedLeastActiveLeases? || strategy.SharedWeightedUsage?)
                   && s.credentials[id].scope != Shared
  }

  /** Step k created the lease while that was allowed, on the credential that the strategy had
      picked after the first j steps. */
  ghost predicate Justified(s: State, steps: seq<Step>, j: nat, k: nat, b: Broker, req: AcquireRequest, id: LeaseId,
                            credentialId: CredentialId, now: int)
  {
    && j <= k < |steps|
    && Picked(DoAll(s, steps[..j]), b.strategy, req, now, credentialId)
    && steps[k].CreateStep? && steps[k].id == id && steps[k].credentialId == credentialId
    && steps[k].runId == req.runId && steps[k].user == req.user && steps[k].ttl == b.leaseTTL
    && now <= steps[k].read <= DoAll(s, steps[..k]).clock
    && CanCreate(DoAll(s, steps[..k]).leases, DoAll(s, steps[..k]).credentials, credentialId, req.runId, req.user,
                 steps[k].read)
  }

  ghost predicate WellGranted(s: State, steps: seq<Step>, b: Broker, req: AcquireRequest, id: LeaseId,
                              credentialId: CredentialId, now: int)
  {
    exists j: nat, k: nat :: Justified(s, steps, j, k, b, req, id, credentialId, now)
  }

  lemma StaysWellGranted(s: State, steps: seq<Step>, more: seq<Step>, b: Broker, req: AcquireRequest, id: LeaseId,
                         credentialId: CredentialId, now: int)
    requires WellGranted(s, steps, b, req, id, credentialId, now)
    ensures WellGranted(s, steps + more, b, req, id, credentialId, now)
  {
    var j: nat, k: nat :| Justified(s, steps, j, k, b, req, id, credentialId, now);
    assert (steps + more)[..j] == steps[..j] && (steps + more)[..k] == steps[..k];
    assert Justified(s, steps + more, j, k, b, req, id, credentialId, now);
  }

  /** The lease of this attempt was refused: by then its credential was not to be had, or the run
      held a live lease. */
  ghost predicate Beaten(s: State, steps: seq<Step>, req: AcquireRequest, id: LeaseId) {
    exists k: nat :: BeatenAt(s, steps, k, req, id)
  }

  ghost predicate BeatenAt(s: State, steps: seq<Step>, k: nat, req: AcquireRequest, id: LeaseId) {
    && k < |steps| && steps[k].CreateStep? && steps[k].id == id && steps[k].runId == req.runId
    && steps[k].user == req.user
    && !CanCreate(DoAll(s, steps[..k]).leases, DoAll(s, steps[..k]).credentials, steps[k].credentialId, req.runId,
                  req.user, steps[k].read)
  }

  lemma StaysBeaten(s: State, steps: seq<Step>, more: seq<Step>, req: AcquireRequest, id: LeaseId)
    requires Beaten(s, steps, req, id)
    ensures Beaten(s, steps + more, req, id)
  {
    var k: nat :| BeatenAt(s, steps, k, req, id);
    assert (steps + more)[..k] == steps[..k];
    assert BeatenAt(s, steps + more, k, req, id);
  }

  ghost predicate AllBeaten(s: State, steps: seq<Step>, req: AcquireRequest, ids: seq<LeaseId>) {
    forall i :: 0 <= i < |ids| ==> Beaten(s, steps, req, ids[i])
  }

  lemma AllStayBeaten(s: State, before: seq<Step>, steps: seq<Step>, req: AcquireRequest, ids: seq<LeaseId>)
    requires before <= steps && AllBeaten(s, before, req, ids)
    ensures AllBeaten(s, steps, req, ids)
  {
    PrefixAndRest(before, steps);
    forall i | 0 <= i < |ids|
      ensures Beaten(s, steps, req, ids[i])
    {
      StaysBeaten(s, before, steps[|before|..], req, ids[i]);
    }
  }

  /** Why an attempt gives up: a call failed, or after some steps nothing was to be picked. */
  ghost predicate Excused(s: State, steps: seq<Step>, b: Broker, req: AcquireRequest, now: int, t: Turn,
                          e: AcquireError)
  {
    match e
    case MissingIds => false
    case StoreFailed => t.listFails || t.createFails || t.getFails || t.bindFails
    case DecryptFailed => t.decryptFails
    case NoCredentialAvailable =>
      exists j: nat :: j <= |steps| && NothingToPick(DoAll(s, steps[..j]), b.strategy, req, now)
  }

  lemma {:induction false} CredentialsAreKept(s: State, steps: seq<Step>)
    ensures s.credentials.Keys <= DoAll(s, steps).credentials.Keys
  {
    if steps != [] {
      CredentialsAreKept(s, steps[..|steps| - 1]);
    }
  }

  lemma NothingListed(s: State, strategy: StrategyName, req: AcquireRequest, now: int, cs: seq<Candidate>)
    requires IsListing(s, req, now, cs) && cs == []
    ensures NothingToPick(s, strategy, req, now)
  {
    forall id | Listed(s.credentials, id, req.user, req.provider, now)
      ensures CandidateOf(s, id, now, now - USAGE_WINDOW) in cs
    {
    }
  }

  lemma NoChoiceMeansNothingToPick(s: State, strategy: StrategyName, req: AcquireRequest, now: int, cs: seq<Candidate>)
    requires IsListing(s, req, now, cs) && Chosen(strategy, req.user, cs, None)
    ensures NothingToPick(s, strategy, req, now)
  {
    ChoiceIsListed(strategy, req.user, cs, None);
    forall id | Listed(s.credentials, id, req.user, req.provider, now)
      ensures (strategy.SharedLeastActiveLeases? || strategy.SharedWeightedUsage?) && s.credentials[id].scope != Shared
    {
      var c := CandidateOf(s, id, now, now - USAGE_WINDOW);
      assert c.id == id && c in cs && InPool(Everyone, c);
      assert Offered(s.credentials[id], req.user, req.provider, now);
      assert InPool(SharedOnes, c) || InPool(OwnOnes(req.user), c);
    }
  }

  class Broker {
    const store: CredentialStore
    const strategy: StrategyName
    const leaseTTL: int

    ghost predicate Valid() {
      leaseTTL > 0
    }

    constructor (store: CredentialStore, strategy: StrategyName, leaseTTL: int)
      ensures Valid() && this.store == store && this.strategy == strategy
      ensures this.leaseTTL == if leaseTTL <= 0 then 90_000_000_000 else leaseTTL
    {
      this.store, this.strategy, this.leaseTTL := store, strategy, if leaseTTL <= 0 then 90_000_000_000 else leaseTTL;
    }

    /** Others run, then the next statement of this call: the account of steps follows. */
    method Meanwhile(script: seq<Step>, ghost s: State, ghost steps: seq<Step>, ghost ids: set<LeaseId>)
      returns (ghost steps': seq<Step>)
      requires store.Now() == DoAll(s, steps) && Spares(script, ids)
      modifies store
      ensures steps' == steps + script && store.Now() == DoAll(s, steps')
      ensures store.Now() == DoAll(old(store.Now()), script)
      ensures old(store.leases).Keys <= store.leases.Keys && old(store.clock) <= store.clock
      ensures ids !! old(store.leases).Keys ==> ids !! store.leases.Keys
    {
      LeasesAreKept(store.Now(), script);
      store.OthersRun(script);
      steps' := steps + script;
      DoAllSplits(s, steps, script);
      if ids !! old(store.leases).Keys {
        SparedIdsStayFree(old(store.Now()), script, ids);
      }
    }

    method GiveBack(id: LeaseId, t: Turn, ghost s: State, ghost steps: seq<Step>, ghost ids: set<LeaseId>)
      returns (ghost steps': seq<Step>)
      requires store.Now() == DoAll(s, steps) && TurnSpares(t, ids) && ids !! store.leases.Keys && id in store.leases
      modifies store
      ensures store.Now() == DoAll(s, steps') && ids !! store.leases.Keys
      ensures steps <= steps' && old(store.clock) <= store.clock
      ensures id in store.leases && store.leases[id].releasedAt.Some?
    {
      steps' := Meanwhile(t.beforeRelease, s, steps, ids);
      OneMore(s, steps', RollbackRelease(id));
      steps' := steps' + [RollbackRelease(id)];
      var _ := store.ReleaseCredentialLease(id);
    }

    /** What follows once the lease is there: read the credential, decrypt it, bind it to the
        run, and give the lease back if any of that fails. */
    method Equip(req: AcquireRequest, id: LeaseId, credentialId: CredentialId, t: Turn,
                 ghost s: State, ghost steps: seq<Step>,
                     ghost ids: set<LeaseId>) returns (outcome: Outcome, ghost steps': seq<Step>)
      requires Valid() && store.Now() == DoAll(s, steps)
      requires TurnSpares(t, ids) && ids !! store.leases.Keys && id in store.leases
      modifies store
      ensures store.Now() == DoAll(s, steps') && ids !! store.leases.Keys
      ensures steps <= steps' && old(store.clock) <= store.clock
      ensures outcome == Granted(id, credentialId) || outcome.NotGranted?
      ensures outcome.NotGranted? ==> id in store.leases && store.leases[id].releasedAt.Some?
      ensures outcome.NotGranted? ==>
                && (outcome.error == StoreFailed ==> t.getFails || t.bindFails)
                && (outcome.error == DecryptFailed ==> t.decryptFails)
                && outcome.error != MissingIds
                && (outcome.error == NoCredentialAvailable ==>
                      credentialId !in DoAll(old(store.Now()), t.beforeGet).credentials)
      ensures outcome.Granted? <==>
              && !t.getFails && !t.decryptFails && !t.bindFails
              && credentialId in DoAll(old(store.Now()), t.beforeGet).credentials
    {
      steps' := Meanwhile(t.beforeGet, s, steps, ids);
      if t.getFails {
        steps' := GiveBack(id, t, s, steps', ids);
        return NotGranted(StoreFailed), steps';
      }
      if credentialId !in store.credentials {
        steps' := GiveBack(id, t, s, steps', ids);
        return NotGranted(NoCredentialAvailable), steps';
      }
      if t.decryptFails {
        steps' := GiveBack(id, t, s, steps', ids);
        steps' := CoolDown(id, credentialId, t, s, steps', ids);
        return NotGranted(DecryptFailed), steps';
      }
      steps' := Meanwhile(t.beforeBind, s, steps', ids);
      if t.bindFails {
        steps' := GiveBack(id, t, s, steps', ids);
        return NotGranted(StoreFailed), steps';
      }
      outcome := Granted(id, credentialId);
    }

    method CoolDown(ghost id: LeaseId, credentialId: CredentialId, t: Turn, ghost s: State, ghost steps: seq<Step>,
                    ghost ids: set<LeaseId>)
      returns (ghost steps': seq<Step>)
      requires store.Now() == DoAll(s, steps) && TurnSpares(t, ids) && ids !! store.leases.Keys
      requires id in store.leases && store.leases[id].releasedAt.Some?
      modifies store
      ensures store.Now() == DoAll(s, steps') && ids !! store.leases.Keys
      ensures steps <= steps' && old(store.clock) <= store.clock
      ensures id in store.leases && store.leases[id].releasedAt.Some?
      ensures !t.cooldownFails && credentialId in store.credentials ==>
                && store.credentials[credentialId].status == Cooldown
                && store.credentials[credentialId].cooldownUntil == Some(store.clock + 300_000_000_000)
    {
      ReleasedStays(store.Now(), t.beforeCooldown, id);
      steps' := Meanwhile(t.beforeCooldown, s, steps, ids);
      if !t.cooldownFails && credentialId in store.credentials {
        var until := Some(store.clock + CRYPTO_COOLDOWN);
        ghost var cooled := store.credentials[credentialId].(status := Cooldown, cooldownUntil := until);
        ghost var write := WriteCredential(credentialId, cooled);
        OneMore(s, steps', write);
        steps' := steps' + [write];
        store.SetCredentialStatus(credentialId, Cooldown, until);
      }
    }

    /** One turn of the loop: list, select, create, equip. */
    method Attempt(req: AcquireRequest, now: int, id: LeaseId, t: Turn, ghost s: State, ghost steps: seq<Step>,
                   ghost ids: set<LeaseId>)
      returns (outcome: Outcome, ghost steps': seq<Step>)
      requires Valid() && store.Now() == DoAll(s, steps) && TurnSpares(t, ids) && ids !! store.leases.Keys
      requires id in ids && now <= store.clock
      modifies store
      ensures store.Now() == DoAll(s, steps') && steps <= steps'
      ensures ids - {id} !! store.leases.Keys && old(store.clock) <= store.clock
      ensures outcome.Granted? ==> outcome.id == id && WellGranted(s, steps', this, req, id, outcome.credentialId, now)
      ensures outcome.Retry? ==> id !in store.leases && Beaten(s, steps', req, id)
      ensures outcome.NotGranted? ==>
                && (id in store.leases ==> store.leases[id].releasedAt.Some?)
                && Excused(s, steps', this, req, now, t, outcome.error)
    {
      steps' := Meanwhile(t.beforeList, s, steps, ids);
      ghost var listed := store.Now();
      if t.listFails {
        return NotGranted(StoreFailed), steps';
      }
      var candidates := store.ListCredentialCandidates(req.user, req.provider, now, now - USAGE_WINDOW);
      assert IsListing(listed, req, now, candidates) && steps'[..|steps'|] == steps';
      if candidates == [] {
        NothingListed(listed, strategy, req, now, candidates);
        return NotGranted(NoCredentialAvailable), steps';
      }
      var choice := Select(strategy, req.user, candidates);
      if choice.None? {
        NoChoiceMeansNothingToPick(listed, strategy, req, now, candidates);
        return NotGranted(NoCredentialAvailable), steps';
      }
      ChoiceIsListed(strategy, req.user, candidates, choice);
      assert Picked(listed, strategy, req, now, choice.value);
      outcome, steps' := CreateAndEquip(req, now, id, choice.value, t, s, steps', ids);
    }

    method CreateAndEquip(req: AcquireRequest, ghost now: int, id: LeaseId, credentialId: CredentialId, t: Turn,
                          ghost s: State, ghost steps: seq<Step>, ghost ids: set<LeaseId>)
      returns (outcome: Outcome, ghost steps': seq<Step>)
      requires Valid() && store.Now() == DoAll(s, steps) && TurnSpares(t, ids) && ids !! store.leases.Keys
      requires id in ids && now <= store.clock && Picked(store.Now(), strategy, req, now, credentialId)
      modifies store
      ensures store.Now() == DoAll(s, steps') && steps <= steps'
      ensures ids - {id} !! store.leases.Keys && old(store.clock) <= store.clock
      ensures outcome.Granted? ==> outcome.id == id && WellGranted(s, steps', this, req, id, outcome.credentialId, now)
      ensures outcome.Retry? ==> id !in store.leases && Beaten(s, steps', req, id)
      ensures outcome.NotGranted? ==>
                && (id in store.leases ==> store.leases[id].releasedAt.Some?)
                && outcome.error != NoCredentialAvailable && Excused(s, steps', this, req, now, t, outcome.error)
    {
      var acquiredAt;
      acquiredAt, steps' := ReadClock(t, s, steps, ids);
      if t.createFails {
        return NotGranted(StoreFailed), steps';
      }
      var ok;
      ok, steps' := Create(req, now, id, credentialId, acquiredAt, s, steps, steps', ids);
      if !ok {
        return Retry, steps';
      }
      ghost var created := steps';
      CredentialsAreKept(store.Now(), t.beforeGet);
      outcome, steps' := Equip(req, id, credentialId, t, s, steps', ids - {id});
      StaysWellGranted(s, created, steps'[|created|..], this, req, id, credentialId, now);
      PrefixAndRest(created, steps');
    }

    method ReadClock(t: Turn, ghost s: State, ghost steps: seq<Step>, ghost ids: set<LeaseId>)
      returns (now: int, ghost steps': seq<Step>)
      requires store.Now() == DoAll(s, steps) && TurnSpares(t, ids) && ids !! store.leases.Keys
      modifies store
      ensures store.Now() == DoAll(s, steps') && steps <= steps' && ids !! store.leases.Keys
      ensures old(store.clock) <= now <= store.clock
    {
      steps' := Meanwhile(t.beforeReading, s, steps, ids);
      now := store.clock;
      steps' := Meanwhile(t.beforeCreate, s, steps', ids);
    }

    /** The statement that creates the lease; `listed` are the steps up to the listing. */
    method Create(req: AcquireRequest, ghost now: int, id: LeaseId, credentialId: CredentialId, acquiredAt: int,
                  ghost s: State, ghost listed: seq<Step>, ghost steps: seq<Step>, ghost ids: set<LeaseId>)
      returns (ok: bool, ghost steps': seq<Step>)
      requires Valid() && store.Now() == DoAll(s, steps) && listed <= steps && ids !! store.leases.Keys
      requires id in ids
      requires now <= acquiredAt <= store.clock
               && Picked(DoAll(s, listed), strategy, req, now, credentialId)
      modifies store`leases
      ensures store.Now() == DoAll(s, steps') && steps <= steps' && ids - {id} !! store.leases.Keys
      ensures ok == (id in store.leases) && (ok ==> credentialId in store.credentials)
      ensures if ok then WellGranted(s, steps', this, req, id, credentialId, now) else Beaten(s, steps', req, id)
    {
      ghost var create := CreateStep(id, credentialId, req.runId, req.user, acquiredAt, leaseTTL);
      OneMore(s, steps, create);
      steps' := steps + [create];
      ok := store.TryCreateCredentialLease(id, credentialId, req.runId, req.user, acquiredAt, leaseTTL);
      assert steps'[..|listed|] == listed && steps'[..|steps|] == steps;
      assert !ok ==> BeatenAt(s, steps', |steps|, req, id);
      assert ok ==> Justified(s, steps', |listed|, |steps|, this, req, id, credentialId, now);
    }

    /** Acquire. The lease is the request's, on a listed and allowed credential, or nothing is
        held: no lease that this call made is live. */
    method Acquire(req: AcquireRequest, ids: seq<LeaseId>, reclaimFails: bool, turns: seq<Turn>)
      returns (outcome: Outcome, ghost steps: seq<Step>)
      requires Valid() && |ids| == ATTEMPTS && |turns| == ATTEMPTS
      requires forall i, j :: 0 <= i < j < ATTEMPTS ==> ids[i] != ids[j]
      requires forall i :: 0 <= i < ATTEMPTS ==> ids[i] !in store.leases && TurnSpares(turns[i], Minted(ids))
      modifies store
      ensures store.Now() == DoAll(old(store.Now()), steps)
      ensures outcome.Granted? || outcome.NotGranted?
      ensures outcome.Granted? ==> && outcome.id in ids
                                   && WellGranted(old(store.Now()), steps, this, Asked(req), outcome.id,
                                                  outcome.credentialId, old(store.clock))
      ensures outcome == NotGranted(MissingIds) <==> req.runId == "" || req.user == ""
      ensures outcome.NotGranted? && outcome.error != MissingIds ==>
                || (reclaimFails && outcome.error == StoreFailed)
                || (exists i :: 0 <= i < ATTEMPTS
                                && Excused(old(store.Now()), steps, this, Asked(req), old(store.clock), turns[i],
                                           outcome.error))
                || AllBeaten(old(store.Now()), steps, Asked(req), ids)
      ensures outcome != NotGranted(MissingIds) && !reclaimFails ==> [ReclaimStep(old(store.clock))] <= steps
      ensures HeldThroughout(old(store.Now()), steps, req.runId) ==> outcome.NotGranted?
      ensures forall i :: 0 <= i < ATTEMPTS && ids[i] in store.leases ==>
                            store.leases[ids[i]].releasedAt.Some? || (outcome.Granted? && outcome.id == ids[i])
    {
      steps := [];
      ghost var s := store.Now();
      if req.runId == "" || req.user == "" {
        return NotGranted(MissingIds), steps;
      }
      var request := if req.provider == "" then AcquireRequest(req.runId, req.user, "codex") else req;
      var now := store.clock;
      if reclaimFails {
        return NotGranted(StoreFailed), steps;
      }
      OneMore(s, steps, ReclaimStep(now));
      steps := [ReclaimStep(now)];
      store.ReclaimExpiredCredentialLeases(now);
      outcome, steps := TryAttempts(request, now, ids, turns, s, steps);
      if outcome.Granted? {
        GrantNeedsFreeRun(s, steps, this, request, outcome.id, outcome.credentialId, now);
      }
    }

    method TryAttempts(req: AcquireRequest, now: int, ids: seq<LeaseId>, turns: seq<Turn>, ghost s: State,
                       ghost steps: seq<Step>)
      returns (outcome: Outcome, ghost steps': seq<Step>)
      requires Valid() && |ids| == ATTEMPTS && |turns| == ATTEMPTS && now <= store.clock
      requires forall i, j :: 0 <= i < j < ATTEMPTS ==> ids[i] != ids[j]
      requires Minted(ids) !! store.leases.Keys && forall i :: 0 <= i < ATTEMPTS ==> TurnSpares(turns[i], Minted(ids))
      requires store.Now() == DoAll(s, steps)
      modifies store
      ensures store.Now() == DoAll(s, steps') && steps <= steps'
      ensures outcome.Granted? || outcome.NotGranted?
      ensures outcome.Granted? ==>
                outcome.id in ids && WellGranted(s, steps', this, req, outcome.id, outcome.credentialId, now)
      ensures outcome.NotGranted? ==>
                && outcome.error != MissingIds
                && (AllBeaten(s, steps', req, ids)
                    || exists i :: 0 <= i < ATTEMPTS && Excused(s, steps', this, req, now, turns[i], outcome.error))
      ensures forall i :: 0 <= i < ATTEMPTS && ids[i] in store.leases ==>
                            store.leases[ids[i]].releasedAt.Some? || (outcome.Granted? && outcome.id == ids[i])
    {
      steps' := steps;
      for attempt := 0 to ATTEMPTS
        invariant store.Now() == DoAll(s, steps') && Minted(ids) !! store.leases.Keys && now <= store.clock
        invariant steps <= steps' && AllBeaten(s, steps', req, ids[..attempt])
      {
        ghost var before := steps';
        outcome, steps' := Attempt(req, now, ids[attempt], turns[attempt], s, steps', Minted(ids));
        AllStayBeaten(s, before, steps', req, ids[..attempt]);
        if !outcome.Retry? {
          return;
        }
      }
      assert ids[..ATTEMPTS] == ids;
      outcome := NotGranted(NoCredentialAvailable);
    }

    /** Renew: a lost lease is not revived; `gap` runs between the clock reading and the statement. */
    method Renew(id: LeaseId, gap: seq<Step>) returns (ok: bool, ghost steps: seq<Step>)
      requires Valid()
      modifies store
      ensures steps == if id == "" then [] else gap + [RenewStep(id, old(store.clock), leaseTTL)]
      ensures store.Now() == DoAll(old(store.Now()), steps)
      ensures ok <==> id != "" && id in store.leases && store.leases[id].releasedAt.None?
                      && DoAll(old(store.Now()), gap).leases[id].expiresAt > old(store.clock)
    {
      if id == "" {
        return false, [];
      }
      var now := store.clock;
      ghost var s := store.Now();
      LeasesAreKept(s, gap);
      store.OthersRun(gap);
      steps := gap + [RenewStep(id, now, leaseTTL)];
      OneMore(s, gap, RenewStep(id, now, leaseTTL));
      ok := store.RenewCredentialLease(id, now, leaseTTL);
    }

    /** Release: only the call that released the lease counts its usage. */
    method Release(id: LeaseId, gap: seq<Step>, countFails: bool) returns (ghost steps: seq<Step>)
      requires BrokerCount(id) !in gap
      modifies store
      ensures store.Now() == DoAll(old(store.Now()), steps)
      ensures steps == if id == "" then [] else if !old(Unreleased(store.leases, id)) || countFails
                       then [BrokerRelease(id)] + (if old(Unreleased(store.leases, id)) then gap else [])
                       else [BrokerRelease(id)] + gap + [BrokerCount(id)]
    {
      if id == "" {
        return [];
      }
      ghost var s := store.Now();
      var first := store.ReleaseCredentialLease(id);
      steps := [BrokerRelease(id)];
      OneMore(s, [], BrokerRelease(id));
      if !first {
        return;
      }
      store.released, store.uncounted := store.released + {id}, store.uncounted + {id};
      DoAllSplits(s, steps, gap);
      KeepsUncounted(store.Now(), gap, id);
      steps := steps + gap;
      store.OthersRun(gap);
      if countFails {
        return;
      }
      steps := CountUse(id, s, steps);
    }

    method CountUse(id: LeaseId, ghost s: State, ghost steps: seq<Step>) returns (ghost steps': seq<Step>)
      requires store.Now() == DoAll(s, steps) && id in store.uncounted && id in store.leases
      modifies store`usage, store`uncounted
      ensures steps' == steps + [BrokerCount(id)] && store.Now() == DoAll(s, steps')
    {
      OneMore(s, steps, BrokerCount(id));
      steps' := steps + [BrokerCount(id)];
      store.UpsertCredentialUsage(store.leases[id].credentialId, store.clock - store.clock % HOUR, 1);
      store.uncounted := store.uncounted - {id};
    }
  }

  lemma {:induction false} KeepsUncounted(s: State, steps: seq<Step>, id: LeaseId)
    requires id in s.uncounted && id in s.leases && BrokerCount(id) !in steps
    ensures id in DoAll(s, steps).uncounted && id in DoAll(s, steps).leases
  {
    if steps != [] {
      assert steps[|steps| - 1] in steps;
      KeepsUncounted(s, steps[..|steps| - 1], id);
    }
  }

  function Minted(ids: seq<LeaseId>): set<LeaseId> {
    set i | 0 <= i < |ids| :: ids[i]
  }

  /** A request without a provider asks for codex. */
  function Asked(req: AcquireRequest): AcquireRequest {
    req.(provider := if req.provider != "" then req.provider else "codex")
  }

  /** A lease is granted only if at some statement of the call the run held no live lease: all
      attempts fail for a run that holds one throughout. */
  lemma GrantNeedsFreeRun(s: State, steps: seq<Step>, b: Broker, req: AcquireRequest, id: LeaseId,
                          credentialId: CredentialId, now: int)
    requires WellGranted(s, steps, b, req, id, credentialId, now)
    ensures !HeldThroughout(s, steps, req.runId)
  {
    var j: nat, k: nat :| Justified(s, steps, j, k, b, req, id, credentialId, now);
    assert !RunHasLive(DoAll(s, steps[..k]).leases, req.runId, DoAll(s, steps[..k]).clock);
  }

  /** At every statement of the call the run holds a live lease. */
  ghost predicate HeldThroughout(s: State, steps: seq<Step>, runId: RunId) {
    forall k :: 0 <= k < |steps| ==> RunHasLive(DoAll(s, steps[..k]).leases, runId, DoAll(s, steps[..k]).clock)
  }
}
