/** Credentials, their leases and their usage counters: the statements, and what they keep over
    whole runs with any number of brokers. */
module CredentialTables {
  import opened RunTypes

  type CredentialId = string
  type LeaseId = string
  type UserId = string

  datatype Scope = Shared | Personal

  datatype CredentialStatus = Active | Disabled | Cooldown

  datatype Credential = Credential(owner: UserId, scope: Scope, provider: string, weight: int,
                                   status: CredentialStatus, cooldownUntil: Option<int>)

  datatype Lease = Lease(credentialId: CredentialId, runId: RunId, userId: UserId, acquiredAt: int, expiresAt: int,
                         releasedAt: Option<int>)

  type Leases = map<LeaseId, Lease>
  type Credentials = map<CredentialId, Credential>
  type Usage = map<CredentialId, map<int, int>> // runs per credential and hour

  const HOUR: int := 3_600_000_000_000

  predicate Live(l: Lease, now: int) {
    l.releasedAt.None? && l.expiresAt > now
  }

  /** The condition on the credential when a lease is created. */
  predicate Leasable(c: Credential, user: UserId, now: int) {
    && c.status == Active
    && (c.cooldownUntil.None? || c.cooldownUntil.value <= now)
    && (c.scope == Shared || c.owner == user)
  }

  predicate RunHasLive(leases: Leases, runId: RunId, now: int) {
    exists l :: l in leases && leases[l].runId == runId && Live(leases[l], now)
  }

  predicate CanCreate(leases: Leases, credentials: Credentials, credentialId: CredentialId, runId: RunId,
                      user: UserId, now: int)
  {
    credentialId in credentials && Leasable(credentials[credentialId], user, now) && !RunHasLive(leases, runId, now)
  }

  function TryCreate(leases: Leases, credentials: Credentials, id: LeaseId, credentialId: CredentialId, runId: RunId,
                     user: UserId, acquiredAt: int, expiresAt: int): Leases
  {
    if CanCreate(leases, credentials, credentialId, runId, user, acquiredAt)
    then leases[id := Lease(credentialId, runId, user, acquiredAt, expiresAt, None)] else leases
  }

  function Renew(leases: Leases, id: LeaseId, expiresAt: int, now: int): Leases {
    if id in leases && Live(leases[id], now) then leases[id := leases[id].(expiresAt := expiresAt)] else leases
  }

  predicate Unreleased(leases: Leases, id: LeaseId) {
    id in leases && leases[id].releasedAt.None?
  }

  function ReleaseOne(leases: Leases, id: LeaseId, now: int): Leases {
    if Unreleased(leases, id) then leases[id := leases[id].(releasedAt := Some(now))] else leases
  }

  function ReleaseRun(leases: Leases, runId: RunId, now: int): Leases {
    map l | l in leases ::
      if leases[l].runId == runId && leases[l].releasedAt.None? then leases[l].(releasedAt := Some(now)) else leases[l]
  }

  function Reclaim(leases: Leases, now: int): Leases {
    map l | l in leases ::
      if leases[l].releasedAt.None? && leases[l].expiresAt <= now
      then leases[l].(releasedAt := Some(now)) else leases[l]
  }

  function HourOf(now: int): int {
    now - now % HOUR
  }

  function WindowsOf(usage: Usage, c: CredentialId): map<int, int> {
    if c in usage then usage[c] else map[]
  }

  function AddUsage(usage: Usage, c: CredentialId, window: int, runs: int): Usage {
    var w := WindowsOf(usage, c);
    usage[c := w[window := (if window in w then w[window] else 0) + runs]]
  }

  // ---------- sums over usage windows ----------

  ghost function SumOver<K>(w: map<K, int>, keys: set<K>): int
    requires keys <= w.Keys
  {
    if keys == {} then 0 else var k :| k in keys; w[k] + SumOver(w, keys - {k})
  }

  /** The runs counted in the windows from `start` on. */
  ghost function RunsSince(w: map<int, int>, start: int): int {
    SumOver(w, set k | k in w && start <= k)
  }

  ghost function Total(w: map<int, int>): int {
    SumOver(w, w.Keys)
  }

  lemma {:induction false} SumSplits<K>(w: map<K, int>, keys: set<K>, k: K)
    requires keys <= w.Keys && k in keys
    ensures SumOver(w, keys) == w[k] + SumOver(w, keys - {k})
  {
    var p :| p in keys && SumOver(w, keys) == w[p] + SumOver(w, keys - {p});
    if p != k {
      SumSplits(w, keys - {p}, k);
      SumSplits(w, keys - {k}, p);
      assert keys - {p} - {k} == keys - {k} - {p};
    }
  }

  lemma {:induction false} SumDependsOnKeys<K>(w: map<K, int>, w': map<K, int>, keys: set<K>)
    requires keys <= w.Keys && keys <= w'.Keys && forall k :: k in keys ==> w'[k] == w[k]
    ensures SumOver(w', keys) == SumOver(w, keys)
  {
    if keys != {} {
      var k :| k in keys;
      SumSplits(w, keys, k);
      SumSplits(w', keys, k);
      SumDependsOnKeys(w, w', keys - {k});
    }
  }

  lemma TotalAfterAdd(usage: Usage, c: CredentialId, window: int, runs: int, other: CredentialId)
    ensures Total(WindowsOf(AddUsage(usage, c, window, runs), other))
            == Total(WindowsOf(usage, other)) + (if other == c then runs else 0)
  {
    if other == c {
      var w, w' := WindowsOf(usage, c), WindowsOf(AddUsage(usage, c, window, runs), c);
      var rest := w.Keys - {window};
      assert w'.Keys == rest + {window} && rest == w'.Keys - {window};
      SumSplits(w', w'.Keys, window);
      SumDependsOnKeys(w, w', rest);
      if window in w {
        SumSplits(w, w.Keys, window);
      } else {
        assert w.Keys == rest;
      }
    }
  }

  // ---------- runs with any number of brokers ----------

  datatype Step =
    | Tick(elapsed: nat)
    | CreateStep(id: LeaseId, credentialId: CredentialId, runId: RunId, user: UserId, read: int, ttl: int)
    | RenewStep(id: LeaseId, read: int, ttl: int)
    | BrokerRelease(id: LeaseId)             // Broker.Release, its first statement
    | BrokerCount(id: LeaseId)               // ... and its second, if the first released the lease
    | RollbackRelease(id: LeaseId)           // Acquire gives a lease back
    | ReleaseRunStep(runId: RunId)
    | ReclaimStep(read: int)
    | WriteCredential(credentialId: CredentialId, c: Credential)

  /** `released` are the leases that Broker.Release was first to release, `uncounted` those of
      them whose usage is still to be written. */
  datatype State = State(leases: Leases, credentials: Credentials, usage: Usage, clock: int,
                         released: set<LeaseId>, uncounted: set<LeaseId>)

  predicate Enabled(s: State, step: Step) {
    match step
    case CreateStep(id, _, _, _, read, ttl) => id !in s.leases && read <= s.clock && ttl > 0
    case RenewStep(_, read, ttl) => read <= s.clock && ttl > 0
    case BrokerCount(id) => id in s.uncounted && id in s.leases
    case ReclaimStep(read) => read <= s.clock
    case _ => true
  }

  function Apply(s: State, step: Step): State
    requires Enabled(s, step)
  {
    match step
    case Tick(elapsed) => s.(clock := s.clock + elapsed)
    case CreateStep(id, c, runId, user, read, ttl) =>
      s.(leases := TryCreate(s.leases, s.credentials, id, c, runId, user, read, read + ttl))
    case RenewStep(id, read, ttl) => s.(leases := Renew(s.leases, id, read + ttl, read))
    case BrokerRelease(id) =>
      if Unreleased(s.leases, id)
      then s.(leases := ReleaseOne(s.leases, id, s.clock), released := s.released + {id},
              uncounted := s.uncounted + {id})
      else s
    case BrokerCount(id) =>
      s.(usage := AddUsage(s.usage, s.leases[id].credentialId, HourOf(s.clock), 1), uncounted := s.uncounted - {id})
    case RollbackRelease(id) => s.(leases := ReleaseOne(s.leases, id, s.clock))
    case ReleaseRunStep(runId) => s.(leases := ReleaseRun(s.leases, runId, s.clock))
    case ReclaimStep(read) => s.(leases := Reclaim(s.leases, read))
    case WriteCredential(c, row) => s.(credentials := s.credentials[c := row])
  }

  const INIT := State(map[], map[], map[], 0, {}, {})

  ghost predicate IsRun(ss: seq<State>, steps: seq<Step>) {
    && |ss| == |steps| + 1
    && ss[0] == INIT
    && forall i :: 0 <= i < |steps| ==> Enabled(ss[i], steps[i]) && ss[i + 1] == Apply(ss[i], steps[i])
  }

  /** Renewals use a clock reading no older than the statement; creations and reclaims need not. */
  ghost predicate RenewalsCurrent(ss: seq<State>, steps: seq<Step>) {
    |ss| == |steps| + 1 && forall i :: 0 <= i < |steps| && steps[i].RenewStep? ==> steps[i].read == ss[i].clock
  }

  predicate LiveFor(s: State, l: LeaseId, runId: RunId) {
    l in s.leases && s.leases[l].runId == runId && Live(s.leases[l], s.clock)
  }

  ghost predicate OneLivePerRun(s: State) {
    forall a, b, r :: LiveFor(s, a, r) && LiveFor(s, b, r) ==> a == b
  }

  lemma StepKeepsOneLive(s: State, step: Step)
    requires OneLivePerRun(s) && Enabled(s, step) && (step.RenewStep? ==> step.read == s.clock)
    ensures OneLivePerRun(Apply(s, step))
    ensures forall l :: l in s.leases && !Live(s.leases[l], s.clock) ==>
                          l in Apply(s, step).leases && !Live(Apply(s, step).leases[l], Apply(s, step).clock)
  {
    var s' := Apply(s, step);
    if step.CreateStep? {
      assert forall l, r :: LiveFor(s', l, r) ==> (l == step.id && r == step.runId) || LiveFor(s, l, r);
      if s'.leases != s.leases {
        assert forall l :: LiveFor(s, l, step.runId) ==> Live(s.leases[l], step.read);
      }
    } else {
      assert forall l, r :: LiveFor(s', l, r) ==> LiveFor(s, l, r);
    }
  }

  lemma {:induction false} AlwaysOneLive(ss: seq<State>, steps: seq<Step>, k: nat)
    requires IsRun(ss, steps) && RenewalsCurrent(ss, steps) && k < |ss|
    ensures OneLivePerRun(ss[k])
  {
    if k > 0 {
      AlwaysOneLive(ss, steps, k - 1);
      StepKeepsOneLive(ss[k - 1], steps[k - 1]);
      assert ss[(k - 1) + 1] == Apply(ss[k - 1], steps[k - 1]);
    }
  }

  /** A lease belongs to one run, and a run has at most one live lease at any time. */
  lemma NeverTwoLeases(ss: seq<State>, steps: seq<Step>, k: nat, a: LeaseId, b: LeaseId)
    requires IsRun(ss, steps) && RenewalsCurrent(ss, steps) && k < |ss|
    requires a in ss[k].leases && b in ss[k].leases && ss[k].leases[a].runId == ss[k].leases[b].runId
    requires Live(ss[k].leases[a], ss[k].clock) && Live(ss[k].leases[b], ss[k].clock)
    ensures a == b
  {
    AlwaysOneLive(ss, steps, k);
    assert LiveFor(ss[k], a, ss[k].leases[a].runId) && LiveFor(ss[k], b, ss[k].leases[a].runId);
  }

  /** When exactly a renewal revives a dead lease: when the lease was still live at the reading
      and the new deadline lies ahead. With a current reading it never was. */
  lemma RenewalRevivesIff(s: State, id: LeaseId, read: int, ttl: int)
    requires id in s.leases && !Live(s.leases[id], s.clock) && read <= s.clock && ttl > 0
    ensures var s' := Apply(s, RenewStep(id, read, ttl));
            Live(s'.leases[id], s'.clock) <==> Live(s.leases[id], read) && s.clock < read + ttl
  {
  }

  /** No other step revives a dead lease, and none revives a released one. */
  lemma OnlyRenewalRevives(s: State, step: Step, l: LeaseId)
    requires Enabled(s, step) && l in s.leases && !Live(s.leases[l], s.clock)
    ensures l in Apply(s, step).leases
    ensures Live(Apply(s, step).leases[l], Apply(s, step).clock) ==>
              && step.RenewStep? && step.id == l && s.leases[l].releasedAt.None?
              && s.leases[l].expiresAt <= s.clock < step.read + step.ttl && step.read < s.leases[l].expiresAt
  {
  }

  /** Step i renews the dead lease `l` on a reading from before its expiry, to beyond the clock. */
  ghost predicate Revives(ss: seq<State>, steps: seq<Step>, i: nat, l: LeaseId)
    requires |ss| == |steps| + 1 && i < |steps|
  {
    && steps[i].RenewStep? && steps[i].id == l && l in ss[i].leases && !Live(ss[i].leases[l], ss[i].clock)
    && Live(ss[i].leases[l], steps[i].read) && ss[i].clock < steps[i].read + steps[i].ttl
  }

  lemma {:induction false} RevivedOnlyByStaleReading(ss: seq<State>, steps: seq<Step>, i: nat, j: nat, l: LeaseId)
    requires IsRun(ss, steps) && i <= j < |ss|
    requires l in ss[i].leases && !Live(ss[i].leases[l], ss[i].clock)
    ensures l in ss[j].leases
    ensures Live(ss[j].leases[l], ss[j].clock) ==> exists k: nat :: i <= k < j && Revives(ss, steps, k, l)
  {
    if i < j {
      RevivedOnlyByStaleReading(ss, steps, i, j - 1, l);
      var s, step := ss[j - 1], steps[j - 1];
      assert Enabled(s, step) && ss[(j - 1) + 1] == Apply(s, step);
      if !Live(s.leases[l], s.clock) {
        OnlyRenewalRevives(s, step, l);
        if Live(ss[j].leases[l], ss[j].clock) {
          assert Revives(ss, steps, j - 1, l);
        }
      } else {
        LeasesOnlyAge(s, step, l);
      }
    }
  }

  predicate LiveAt(s: State, l: LeaseId) {
    l in s.leases && Live(s.leases[l], s.clock)
  }

  /** Over whole runs: a lease that died is live again if and only if such a renewal happened. */
  lemma RevivalIff(ss: seq<State>, steps: seq<Step>, i: nat, l: LeaseId)
    requires IsRun(ss, steps) && i < |ss| && l in ss[i].leases && !Live(ss[i].leases[l], ss[i].clock)
    ensures (exists j: nat :: i <= j < |ss| && LiveAt(ss[j], l)) <==>
            exists k: nat :: i <= k < |steps| && Revives(ss, steps, k, l)
  {
    forall j: nat | i <= j < |ss| && LiveAt(ss[j], l)
      ensures exists k: nat :: i <= k < |steps| && Revives(ss, steps, k, l)
    {
      RevivedOnlyByStaleReading(ss, steps, i, j, l);
    }
    forall k: nat | i <= k < |steps| && Revives(ss, steps, k, l)
      ensures k + 1 < |ss| && LiveAt(ss[k + 1], l)
    {
      assert Enabled(ss[k], steps[k]) && ss[k + 1] == Apply(ss[k], steps[k]);
      RenewalRevivesIff(ss[k], l, steps[k].read, steps[k].ttl);
    }
  }

  /** A released lease stays released, whatever readings are used. */
  lemma {:induction false} ReleasedIsForever(ss: seq<State>, steps: seq<Step>, i: nat, j: nat, l: LeaseId)
    requires IsRun(ss, steps) && i <= j < |ss| && l in ss[i].leases && ss[i].leases[l].releasedAt.Some?
    ensures l in ss[j].leases && ss[j].leases[l].releasedAt.Some? && !Live(ss[j].leases[l], ss[j].clock)
  {
    if i < j {
      ReleasedIsForever(ss, steps, i, j - 1, l);
      ReleasedAlong(ss, steps, j - 1, l);
    }
  }

  lemma ReleasedAlong(ss: seq<State>, steps: seq<Step>, k: nat, l: LeaseId)
    requires IsRun(ss, steps) && k < |steps| && l in ss[k].leases && ss[k].leases[l].releasedAt.Some?
    ensures l in ss[k + 1].leases && ss[k + 1].leases[l].releasedAt.Some?
  {
    assert Enabled(ss[k], steps[k]) && ss[k + 1] == Apply(ss[k], steps[k]);
    LeasesOnlyAge(ss[k], steps[k], l);
  }

  /** With renewals on current readings, a lease that expired or was released is never live again. */
  lemma {:induction false} DeadStaysDead(ss: seq<State>, steps: seq<Step>, i: nat, j: nat, l: LeaseId)
    requires IsRun(ss, steps) && RenewalsCurrent(ss, steps) && i <= j < |ss|
    requires l in ss[i].leases && !Live(ss[i].leases[l], ss[i].clock)
    ensures l in ss[j].leases && !Live(ss[j].leases[l], ss[j].clock)
  {
    if i < j {
      DeadStaysDead(ss, steps, i, j - 1, l);
      AlwaysOneLive(ss, steps, j - 1);
      StepKeepsOneLive(ss[j - 1], steps[j - 1]);
      assert ss[(j - 1) + 1] == Apply(ss[j - 1], steps[j - 1]);
    }
  }

  lemma OnlyStaleRenewalsBreak(s: State, id: LeaseId, read: int, ttl: int)
    requires OneLivePerRun(s) && read <= s.clock && ttl > 0
    requires !OneLivePerRun(Apply(s, RenewStep(id, read, ttl)))
    ensures id in s.leases && Live(s.leases[id], read) && s.leases[id].expiresAt <= s.clock < read + ttl
    ensures RunHasLive(s.leases, s.leases[id].runId, s.clock)
  {
    var s' := Apply(s, RenewStep(id, read, ttl));
    var a, b, r :| LiveFor(s', a, r) && LiveFor(s', b, r) && a != b;
    assert a != id ==> LiveFor(s, a, r);
    assert b != id ==> LiveFor(s, b, r);
    var o := if a == id then b else a;
    assert LiveFor(s', id, r) && LiveFor(s, o, r) && o != id;
    assert !LiveFor(s, id, r);
  }

  /** When exactly a renewal leaves a run with two live leases: when its reading is so old that
      the lease had expired by the time of the statement, the run has another live lease by
      then, and the new deadline is still ahead. */
  lemma RenewalBreaksIff(s: State, id: LeaseId, read: int, ttl: int)
    requires OneLivePerRun(s) && read <= s.clock && ttl > 0
    ensures !OneLivePerRun(Apply(s, RenewStep(id, read, ttl))) <==>
            && id in s.leases && Live(s.leases[id], read)
            && s.leases[id].expiresAt <= s.clock < read + ttl
            && RunHasLive(s.leases, s.leases[id].runId, s.clock)
  {
    if id in s.leases && Live(s.leases[id], read) && s.leases[id].expiresAt <= s.clock < read + ttl
       && RunHasLive(s.leases, s.leases[id].runId, s.clock)
    {
      SecondLeaseByRenewal(s, id, read, ttl);
    } else if !OneLivePerRun(Apply(s, RenewStep(id, read, ttl))) {
      OnlyStaleRenewalsBreak(s, id, read, ttl);
    }
  }

  lemma SecondLeaseByRenewal(s: State, id: LeaseId, read: int, ttl: int)
    requires read <= s.clock < read + ttl && ttl > 0 && id in s.leases
    requires Live(s.leases[id], read) && !Live(s.leases[id], s.clock)
             && RunHasLive(s.leases, s.leases[id].runId, s.clock)
    ensures !OneLivePerRun(Apply(s, RenewStep(id, read, ttl)))
  {
    var s' := Apply(s, RenewStep(id, read, ttl));
    var o :| o in s.leases && s.leases[o].runId == s.leases[id].runId && Live(s.leases[o], s.clock);
    assert LiveFor(s', o, s.leases[id].runId) && LiveFor(s', id, s.leases[id].runId) && o != id;
  }

  /** Step i renews, on a reading from before its expiry and to beyond the clock, an expired lease
      whose run has another live one by now. */
  ghost predicate Doubles(ss: seq<State>, steps: seq<Step>, i: nat)
    requires |ss| == |steps| + 1 && i < |steps|
  {
    && steps[i].RenewStep? && Revives(ss, steps, i, steps[i].id)
    && RunHasLive(ss[i].leases, ss[i].leases[steps[i].id].runId, ss[i].clock)
  }

  lemma {:induction false} DoubledOnlyByRenewal(ss: seq<State>, steps: seq<Step>, k: nat)
    requires IsRun(ss, steps) && k < |ss| && !OneLivePerRun(ss[k])
    ensures exists i: nat :: i < k && Doubles(ss, steps, i)
  {
    if k > 0 {
      var s, step := ss[k - 1], steps[k - 1];
      assert Enabled(s, step) && ss[(k - 1) + 1] == Apply(s, step);
      if OneLivePerRun(s) {
        if !step.RenewStep? {
          StepKeepsOneLive(s, step);
        } else {
          OnlyStaleRenewalsBreak(s, step.id, step.read, step.ttl);
          assert Doubles(ss, steps, k - 1);
        }
      } else {
        DoubledOnlyByRenewal(ss, steps, k - 1);
      }
    }
  }

  /** Over whole runs with any readings: some run has two live leases at some time if and only if
      such a renewal happened. */
  lemma SecondLeaseIff(ss: seq<State>, steps: seq<Step>)
    requires IsRun(ss, steps)
    ensures (exists k: nat :: k < |ss| && !OneLivePerRun(ss[k])) <==>
            exists i: nat :: i < |steps| && Doubles(ss, steps, i)
  {
    forall k: nat | k < |ss| && !OneLivePerRun(ss[k])
      ensures exists i: nat :: i < |steps| && Doubles(ss, steps, i)
    {
      DoubledOnlyByRenewal(ss, steps, k);
    }
    forall i: nat | i < |steps| && Doubles(ss, steps, i)
      ensures i + 1 < |ss| && !OneLivePerRun(ss[i + 1])
    {
      assert Enabled(ss[i], steps[i]) && ss[i + 1] == Apply(ss[i], steps[i]);
      SecondLeaseByRenewal(ss[i], steps[i].id, steps[i].read, steps[i].ttl);
    }
  }

  lemma OneMoreStep(ss: seq<State>, steps: seq<Step>, step: Step) returns (ss': seq<State>, steps': seq<Step>)
    requires IsRun(ss, steps) && Enabled(ss[|ss| - 1], step)
    ensures IsRun(ss', steps') && ss'[|ss'| - 1] == Apply(ss[|ss| - 1], step)
  {
    ss', steps' := ss + [Apply(ss[|ss| - 1], step)], steps + [step];
    forall i | 0 <= i < |steps'|
      ensures Enabled(ss'[i], steps'[i]) && ss'[i + 1] == Apply(ss'[i], steps'[i])
    {
      if i < |steps| {
        assert ss[i + 1] == Apply(ss[i], steps[i]);
      }
    }
  }

  /** It can happen: a renewal whose reading is one tick old gives a run a second live lease. */
  lemma StaleRenewalHappens()
    ensures exists ss: seq<State>, steps: seq<Step> :: IsRun(ss, steps) && !OneLivePerRun(ss[|ss| - 1])
  {
    var c := Credential("", Shared, "codex", 1, Active, None);
    var ss, steps := OneMoreStep([INIT], [], WriteCredential("c", c));
    ss, steps := OneMoreStep(ss, steps, CreateStep("a", "c", "r", "u", 0, 90));
    ss, steps := OneMoreStep(ss, steps, Tick(90));
    ss, steps := OneMoreStep(ss, steps, CreateStep("b", "c", "r", "u", 90, 90));
    ss, steps := OneMoreStep(ss, steps, RenewStep("a", 89, 90));
    var s := ss[|ss| - 1];
    assert LiveFor(s, "a", "r") && LiveFor(s, "b", "r");
  }

  /** Every lease came into being while its credential was active, not cooling down, shared or
      the holder's own, and its run had no live lease. */
  lemma {:induction false} EveryLeaseWasAllowed(ss: seq<State>, steps: seq<Step>, k: nat, l: LeaseId)
    requires IsRun(ss, steps) && k < |ss| && l in ss[k].leases
    ensures exists i :: 0 <= i < k && CreatedAt(ss, steps, i, l, ss[k].leases[l])
  {
    if k > 0 {
      var step := steps[k - 1];
      assert Enabled(ss[k - 1], step) && ss[(k - 1) + 1] == Apply(ss[k - 1], step);
      if l in ss[k - 1].leases {
        EveryLeaseWasAllowed(ss, steps, k - 1, l);
        var i :| 0 <= i < k - 1 && CreatedAt(ss, steps, i, l, ss[k - 1].leases[l]);
        assert CreatedAt(ss, steps, i, l, ss[k].leases[l]);
      } else {
        assert CreatedAt(ss, steps, k - 1, l, ss[k].leases[l]);
      }
    }
  }

  predicate CreatedAt(ss: seq<State>, steps: seq<Step>, i: int, id: LeaseId, l: Lease) {
    && 0 <= i < |steps| && i < |ss| && steps[i].CreateStep? && steps[i].id == id
    && steps[i].credentialId == l.credentialId && steps[i].runId == l.runId && steps[i].user == l.userId
    && CanCreate(ss[i].leases, ss[i].credentials, l.credentialId, l.runId, l.userId, steps[i].read)
  }

  // ---------- usage conservation ----------

  ghost function OfCredential(s: State, ids: set<LeaseId>, c: CredentialId): set<LeaseId> {
    set l | l in ids && l in s.leases && s.leases[l].credentialId == c
  }

  /** The counters and the releases still to be counted add up to the releases. */
  ghost predicate Conserved(s: State) {
    && s.uncounted <= s.released <= s.leases.Keys
    && (forall l :: l in s.released ==> s.leases[l].releasedAt.Some?)
    && forall c :: Balanced(s, c)
  }

  ghost predicate Balanced(s: State, c: CredentialId) {
    Total(WindowsOf(s.usage, c)) + |OfCredential(s, s.uncounted, c)| == |OfCredential(s, s.released, c)|
  }

  lemma SameOfCredential(s: State, s': State, ids: set<LeaseId>, c: CredentialId)
    requires ids <= s.leases.Keys <= s'.leases.Keys
    requires forall l :: l in s.leases ==> s'.leases[l].credentialId == s.leases[l].credentialId
    ensures OfCredential(s', ids, c) == OfCredential(s, ids, c)
  {
  }

  /** What any step does to the leases already there: their credential is fixed, and a release
      is final. */
  lemma LeasesOnlyAge(s: State, step: Step, l: LeaseId)
    requires Enabled(s, step) && l in s.leases
    ensures l in Apply(s, step).leases && Apply(s, step).leases[l].credentialId == s.leases[l].credentialId
    ensures s.leases[l].releasedAt.Some? ==> Apply(s, step).leases[l].releasedAt.Some?
  {
  }

  lemma OneMoreOfCredential(s: State, ids: set<LeaseId>, id: LeaseId, c: CredentialId)
    requires id in s.leases && id !in ids
    ensures |OfCredential(s, ids + {id}, c)| == |OfCredential(s, ids,
                                                              c)| + (if s.leases[id].credentialId == c then 1 else 0)
  {
    if s.leases[id].credentialId == c {
      assert OfCredential(s, ids + {id}, c) == OfCredential(s, ids, c) + {id};
    } else {
      assert OfCredential(s, ids + {id}, c) == OfCredential(s, ids, c);
    }
  }

  lemma ReleaseKeepsConserved(s: State, id: LeaseId)
    requires Conserved(s) && Unreleased(s.leases, id)
    ensures Conserved(Apply(s, BrokerRelease(id)))
  {
    var s' := Apply(s, BrokerRelease(id));
    assert s'.usage == s.usage && s'.leases.Keys == s.leases.Keys;
    assert id !in s.released && id !in s.uncounted;
    forall c
      ensures Balanced(s', c)
    {
      assert Balanced(s, c);
      SameOfCredential(s, s', s.uncounted, c);
      SameOfCredential(s, s', s.released, c);
      OneMoreOfCredential(s', s.uncounted, id, c);
      OneMoreOfCredential(s', s.released, id, c);
    }
  }

  lemma CountKeepsConserved(s: State, id: LeaseId)
    requires Conserved(s) && id in s.uncounted && id in s.leases
    ensures Conserved(Apply(s, BrokerCount(id)))
  {
    var s' := Apply(s, BrokerCount(id));
    var cred, window := s.leases[id].credentialId, HourOf(s.clock);
    assert s'.usage == AddUsage(s.usage, cred, window, 1) && s'.leases == s.leases;
    forall c
      ensures Balanced(s', c)
    {
      assert Balanced(s, c);
      TotalAfterAdd(s.usage, cred, window, 1, c);
      assert s'.uncounted + {id} == s.uncounted;
      SameOfCredential(s, s', s.uncounted, c);
      SameOfCredential(s, s', s.released, c);
      OneMoreOfCredential(s', s'.uncounted, id, c);
    }
  }

  lemma StepKeepsConserved(s: State, step: Step)
    requires Conserved(s) && Enabled(s, step)
    ensures Conserved(Apply(s, step))
  {
    var s' := Apply(s, step);
    if step.BrokerRelease? && Unreleased(s.leases, step.id) {
      ReleaseKeepsConserved(s, step.id);
    } else if step.BrokerCount? {
      CountKeepsConserved(s, step.id);
    } else {
      forall l | l in s.leases
        ensures l in s'.leases && s'.leases[l].credentialId == s.leases[l].credentialId
                && (s.leases[l].releasedAt.Some? ==> s'.leases[l].releasedAt.Some?)
      {
        LeasesOnlyAge(s, step, l);
      }
      AgeKeepsConserved(s, s');
    }
  }

  lemma AgeKeepsConserved(s: State, s': State)
    requires Conserved(s) && s'.usage == s.usage && s'.uncounted == s.uncounted && s'.released == s.released
    requires forall l :: l in s.leases ==> l in s'.leases && s'.leases[l].credentialId == s.leases[l].credentialId
                                           && (s.leases[l].releasedAt.Some? ==> s'.leases[l].releasedAt.Some?)
    ensures Conserved(s')
  {
    forall c
      ensures Balanced(s', c)
    {
      assert Balanced(s, c);
      SameOfCredential(s, s', s.uncounted, c);
      SameOfCredential(s, s', s.released, c);
    }
  }

  lemma {:induction false} AlwaysConserved(ss: seq<State>, steps: seq<Step>, k: nat)
    requires IsRun(ss, steps) && k < |ss|
    ensures Conserved(ss[k])
  {
    if k > 0 {
      AlwaysConserved(ss, steps, k - 1);
      StepKeepsConserved(ss[k - 1], steps[k - 1]);
      assert ss[(k - 1) + 1] == Apply(ss[k - 1], steps[k - 1]);
    }
  }

  /** Once every release has been counted, the counters of a credential add up to its leases
      first released through the broker: renewals, repeated releases, rollbacks, reclaims and
      failed creations count nothing. */
  lemma UsageCountsReleases(ss: seq<State>, steps: seq<Step>, k: nat, c: CredentialId)
    requires IsRun(ss, steps) && k < |ss| && ss[k].uncounted == {}
    ensures Total(WindowsOf(ss[k].usage, c)) == |OfCredential(ss[k], ss[k].released, c)|
  {
    AlwaysConserved(ss, steps, k);
    assert Balanced(ss[k], c);
    assert OfCredential(ss[k], {}, c) == {};
  }
}
